# MudFish in Dafny

A model of five parts of the MudFish crawler, with proofs about all their runs.

**The crawl protocol.** `Protocol.dfy` is a transition system: the main thread, any number of
workers, the priority queue with its fingerprint set, `pending`, `stopped`, the `Notify`, the
atomic fetch budget, the permits, the statistics and the two SQLite tables. One step is one
atomic operation, one lock scope or one SQL statement. Clock, breaker, robots, responses, the
choice of the waiter that `notify_one` wakes and spurious compare-exchange failures come from
an arbitrary oracle. Of `Notify` only the documented contract is used: `notify_waiters` wakes
every future created before the call, `notify_one` wakes one waiting future or stores one
permit; a future that a broadcast already woke may or may not also take that permit.
`Census.dfy` counts threads by phase. On top of it stand

- `Wakeups.dfy`: exact `pending`, no lost wake-up, no early exit, no deadlock;
- `Termination.dfy`: a six-part rank that every step lowers, so every schedule ends;
- `Accounting.dfy`: the hard budget and the balance of the final statistics;
- `Coverage.dfy`: what a crawl visits does not depend on the schedule;
- `Recovery.dfy`: crashes between any two steps, over any number of restarts;
- `Verdicts.dfy`: what a refusal leaves behind, and how often each verdict was given;
- `Outcomes.dfy`: the pages and errors of a process are exactly what its fetches returned;
- `Guards.dfy`: host permits, the checks at the loop head, leases, parents, the queue's order;
- `OneWorker.dfy`: with one worker the crawl is an exact breadth-first search, and depths are
  shortest distances with one worker only;
- `Drops.dfy`: when an item can be given up to the budget;
- `ScopeOrder.dfy`: on which stores the seed comes before everything below it;
- `Resume.dfy`: what a crawl covers over any number of processes on one store;
- `Stranded.dfy`: exactly when a restart leaves reachable pages behind;
- `Drains.dfy`: crawls without limits can be run to a drained end on every site;
- `Scripts.dfy` and `Races.dfy`: concrete runs, for the failing sides.

`Storage.dfy` and `FrontierQueue.dfy` are the store and the frontier as classes changed in
place, and `SoloCrawl.dfy` is the engine's loop with one worker as a program over them. It
accepts the URLs that the transition system with one worker accepts, at the same depths.

Fingerprints are 64-bit values of an arbitrary function, so some URLs share one. What depends
on that is stated for `Distinct(c, site, n)`: no two URLs within n in-scope links of the seed
share a fingerprint. Where the code is right exactly under it, that is the theorem.

**Adaptive relocation.** `Text.dfy`, `Attributes.dfy`, `Lcs.dfy`, `Ranking.dfy` and
`Relocate.dfy`: every fast form (two swapped rows, bounded top list, running maximum and tie
count, remembered parents, precomputed tokens) is proved equal to a plain definition.
`Scores.dfy` says what the plain definitions mean, in tags, tokens, common subsequences and
numbers. Scores are reals.

**Pacing.** `Politeness.dfy`: the token bucket's virtual-time schedule and its composition
with the minimum delay, in nanoseconds; each call starts as soon as both allow.

**Canonical URLs.** `Urls.dfy` (the form and its laws), `UrlBuffer.dfy` (the same, edited in
place) and `Canonical.dfy` (what each rule leaves of each field, in characters and pairs).

**The circuit breaker.** `Breaker.dfy`: all event runs of one host; `Statuses.dfy`: the same
state in terms of the statuses and times alone.

A definition that a method is proved against is thus never its own witness: `Verdicts`,
`Outcomes`, `Guards`, `Scores`, `Canonical`, `Statuses` and the closing sections of `Text`,
`Attributes` and `Politeness` state what the definitions yield without them. `Selections.dfy`
holds what they share.

`dafny verify dfyconfig.toml` checks the project.

## Where the code and its comments differ

The model follows the code.

- HalfOpen is documented as letting one trial request through (`crates/fetch/src/health.rs:107`);
  it admits every request until a response is recorded (`Breaker.HalfOpenAdmitsAll`), and every
  breaker gets there (`Breaker.HalfOpenAdmitsTwo`).
- A restart is documented as not losing work (`crates/frontier/src/frontier.rs:54-55`). Four ways
  to lose a URL for good remain; without the first three, a crawl in any number of processes is
  complete exactly where the fourth cannot happen (`Stranded.ResumeCompleteness`).
  1. A crash between `mark_seen` and `enqueue` leaves a fingerprint in `seen` without a row, at
     most one a crash (`Recovery.CrashLosesAtMostOne`, `Recovery.GoneForGood`). If that URL is the
     seed, every later process finds nothing to do (`Races.SeedLost`).
  2. An item rejected by the budget is completed without being fetched
     (`crates/engine/src/lib.rs:232-235`), and no later process queues or accepts it
     (`Races.DropIsForGood`). It can happen exactly with at least two workers and a limit of at
     least 1 (`Drops.DropsNeedARace`).
  3. So is an item met while its host's circuit is open or robots refuse it
     (`crates/engine/src/lib.rs:204-218`, `Races.SkipIsForGood`). In the coverage results a site
     answers such a URL with nothing.
  4. Every process starts with the literal host of the seed as its scope
     (`crates/engine/src/lib.rs:105`), and only the seed's answer can move it. With the seed
     completed, no later process moves it (`Stranded.ResumeStuck`): with `same_domain` and a seed
     that redirects to another host, resumed pages lose their links to that host and are
     completed (`Stranded.PageStranded`), after a crash or a clean stop alike. It can happen
     exactly if a page fits between the seed and `max_depth`, the limit is not 0, and the new host
     has two URLs that differ from the seed and each other by fingerprint.
- Without `max_urls` the counter behind `urls_fetched` is never raised; the number is right
  exactly when there is a limit or there are no pages (`Accounting.FetchedReport`;
  `Drains.PagesUncounted` is a crawl that reports 0).
- "+1 for the seed" (`crates/engine/src/lib.rs:389`) is right exactly when the session started
  from one item, which a resumed store need not (`Accounting.Conservation`;
  `Drains.NothingCountedAsOne` is a crawl of nothing that reports one URL).
- The comment on the scope host (`crates/engine/src/lib.rs:99-105`) says that no item below the
  seed exists before the seed was processed. On a store, pages below the seed wait for its answer
  exactly when the limit is 0 or no row left is between depth 0 and `max_depth`
  (`ScopeOrder.ScopeOrdering`), so the results of `Coverage` are about fresh crawls; for resumed
  ones see `Resume` and `Stranded`.
- The breaker's deadline stands until a success exactly when the base cooldown is at most the
  cap of 600 s; a longer one is cut by a late second failure (`Breaker.NothingBeforeDeadline`).
- Attribute lists that share no name score a half, not zero (`Attributes.NothingShared`).
- `normalize_value` is not idempotent: truncation can leave a trailing blank
  (`Text.NormalValueIdempotent` says exactly when, `Text.TrailingBlank` is an instance).
- A depth is a shortest distance in all crawls of n workers exactly if n is 1
  (`OneWorker.ShortestNeedsOneWorker`). With more, a URL can be claimed on a longer path first
  (`Races.DepthNotShortest`); what holds is `Coverage.DepthsAreReal`.
- Two URLs with one fingerprint are taken for one (`crates/core/src/normalize.rs:175-185`):
  a drained crawl is complete only where the URLs within its reach have fingerprints of their
  own (`Coverage.DrainedCoverage`, `OneWorker.OneWorkerBfs`, `SoloCrawl.CrawlAlone`).

## Model

| member | source | states |
|---|---|---|
| Wakeups.AlertAlways | crates/frontier/src/frontier.rs:98-211 | in every reachable state `pending` is the queue plus what threads hold between counting and completing; a stop or a drain whose broadcast is due has a thread about to send it; a non-empty queue has a thread that will look at it |
| Wakeups.NoLostWakeup | crates/frontier/src/frontier.rs:144-189 | a worker parked and not notified implies: not stopped, or a stopper is about to notify; and `pending` above 0, or a completer is about to notify |
| Wakeups.ExitMeansNoWork | crates/frontier/src/frontier.rs:173-175 | a worker that gets None while the crawl is not stopped leaves a state with nothing queued, in hand or being pushed |
| Wakeups.NoWorkForever | crates/frontier/src/frontier.rs:15-24 | from such a state no run ever has work again |
| Wakeups.GlobalPermitFree | crates/engine/src/lib.rs:202 | a worker asking for the global permit finds one free |
| Wakeups.NoDeadlock | crates/frontier/src/frontier.rs:144-211 | until all threads have left, some thread can move, and without a spurious compare-exchange failure |
| Termination.StepBelow | crates/frontier/src/frontier.rs:98-179 | every step lowers the rank (unseen fingerprints, unfetched items, work left, stale compare-exchanges, undelivered wake-ups, steps before parking), spurious wake-ups included |
| Termination.VisitedBounded | crates/core/src/normalize.rs:175-185 | a set of 64-bit fingerprints is finite |
| Termination.RunStops | crates/engine/src/lib.rs:178-370 | from any state, every schedule that moves while it can and does not let compare-exchanges fail spuriously for ever comes to a state in which nothing can go on |
| Termination.SpuriousStays | crates/engine/src/lib.rs:229-247 | a spurious compare-exchange failure leaves the whole state as it is, or is a step that some strong compare-exchange takes too |
| Termination.CrawlEnds | crates/engine/src/lib.rs:178-374 | under every such schedule, with any number of spurious failures in between, every worker leaves |
| Accounting.HardBudget | crates/engine/src/lib.rs:229-247 | in every reachable state, under every interleaving: the counter is the pages plus the reservations held, and never above `max_urls` |
| Accounting.FetchedReport | crates/engine/src/lib.rs:386-392 | at the end `urls_fetched` is the number of pages if and only if a limit was set or there are no pages; `errors` is the number of error records |
| Accounting.Conservation | crates/engine/src/lib.rs:386-397 | at the end all that was found is a page, an error, a skip, a budget drop or still queued; `urls_discovered` is that total if and only if the session had one root; drops are at most the workers; without a stop both last terms are 0 |
| Coverage.CoversAlways | crates/engine/src/lib.rs:313-335 | in every state of a fresh crawl all items and pages are real, and every duty (ask, expand, push each link) is done or some thread still holds it |
| Coverage.BornOnceAlways | crates/frontier/src/frontier.rs:98-103 | in every state of a fresh crawl each fingerprint was accepted at most once, as one URL at one depth |
| Coverage.DepthsAreReal | crates/engine/src/lib.rs:319-335 | in every schedule, every item and page sits on a path of in-scope links as long as its depth |
| Coverage.DrainedCoverage | crates/engine/src/lib.rs:319-335 | whatever a drained crawl visited is the fingerprint of an accepted URL within `max_depth`; it accepted every reachable URL if and only if no page at `max_depth` links to something nobody visited and no two URLs within `max_depth` + 1 share a fingerprint; the first holds where no path has `max_depth` + 1 links |
| Coverage.ScheduleIndependence | crates/frontier/src/frontier.rs:98-103 | two drained crawls of one site, with any numbers of workers and any schedules, neither cut at `max_depth`, accept the same URLs and visit the same fingerprints, given distinct fingerprints within `max_depth` + 1 |
| Recovery.DurableAlways | crates/frontier/src/store.rs:57-143 | over any number of processes and crashes: one row for each live item, every visited fingerprint in exactly one place, unique sequence numbers, losses at most the crashes |
| Recovery.RestartRebuilds | crates/frontier/src/store.rs:57-100 | after a crash anywhere, the restored queue holds each item that was queued, in hand or stored once, and nothing else; `pending` is its size |
| Recovery.CrashLosesAtMostOne | crates/frontier/src/frontier.rs:115-122 | what a crash adds to the lost set is exactly the fingerprint of the thread between `mark_seen` and `enqueue`, at most one |
| Recovery.CleanExitLosesNothing | crates/frontier/src/frontier.rs:52-57 | a process that ends by itself leaves no fingerprint without a row; its queue and its visited set come back (what the next process makes of them: Stranded.ResumeCompleteness) |
| Recovery.GoneForGood | crates/frontier/src/frontier.rs:95-103 | a URL completed or lost once stays in `visited` over all restarts and is never queued or in hand again |
| Recovery.PopOrderStrict | crates/frontier/src/item.rs:35-41 | two live items never tie in the heap's order |
| Recovery.RestartPopsFirst | crates/frontier/src/store.rs:72-76 | the restored queue's top is the first of everything that was live |
| Recovery.TablesSane | crates/frontier/src/store.rs:33-50 | wherever a process dies, the tables hold canonical items under their own fingerprints, all of them in `seen`, with distinct sequence numbers |
| Recovery.RepushRefused | crates/frontier/src/frontier.rs:98-103 | every item queued or in hand has a canonical URL, so pushing it again is refused |
| Verdicts.RefusedLeavesNothing | crates/engine/src/lib.rs:204-218 | if the breaker or robots.txt refuses an item in some step, then in every later state of that process no page and no error entry has its URL's fingerprint, and no expansion of it is new |
| Verdicts.AdmittedIsNotRefused | crates/engine/src/lib.rs:204-218 | a URL that both let through is refused in no other step of the process, before or after |
| Verdicts.CountersAreVerdicts | crates/engine/src/lib.rs:204-367 | at the end of a process `skipped` is the number of steps with a refusal, the pages as many as the fetches answered, `errors` the number of those that failed |
| Outcomes.ResultsAreFetches | crates/engine/src/lib.rs:253-367 | at the end a page record is listed if and only if some fetch of an item with that URL and depth was answered with those links, and a URL is in the error list if and only if a fetch of it failed |
| Outcomes.ResultsOnce | crates/engine/src/lib.rs:350-367 | in every state of a process no two entries of the page and error lists share a fingerprint |
| Outcomes.AdmittedEnds | crates/engine/src/lib.rs:220-370 | an item that both verdicts let through ends as a page or an error, unless some step found the budget spent when it was to reserve for that item |
| Guards.HostLimit | crates/engine/src/lib.rs:249-251 | in every state at most `per_host_concurrency` threads are between the request and the record for one host |
| Guards.HeadDecides | crates/engine/src/lib.rs:180-194 | at the loop head a worker turns to leave if and only if the deadline has passed or the budget is spent, and nothing else changes |
| Guards.CalledOffLeaves | crates/engine/src/lib.rs:180-194 | such a worker never takes an item again, and has stopped the crawl or is about to |
| Guards.LeasesAlways | crates/frontier/src/frontier.rs:155-163 | over any number of processes a row is marked in-flight if and only if some thread has its item, from its lease to its deletion |
| Guards.LiveIsParented | crates/engine/src/lib.rs:319-332 | every item queued or in hand carries the URL of a page expanded one level above that links to it, on the scope host then read if `same_domain` is set; only the seed carries none |
| Guards.PopsInOrder | crates/frontier/src/item.rs:35-41 | a worker takes the queued item of least depth, and of those the one numbered first |
| Guards.NumberedLast | crates/frontier/src/frontier.rs:104-112 | a new item is numbered above everything queued or in hand |
| Races.SeedLost | crates/frontier/src/frontier.rs:115-122 | a run that dies three steps after its start, and the restart that has nothing queued and refuses the seed |
| Races.DepthNotShortest | crates/engine/src/lib.rs:319-335 | for every n of at least 2, a run of n workers in which a URL one link from the seed is claimed at depth 2 |
| Races.DropIsForGood | crates/engine/src/lib.rs:229-247 | for every n of at least 2 and every limit of at least 1 (64 bits): a run of n workers that drops a URL which was never answered; after every restart its fingerprint is visited and it is not queued |
| Races.SkipIsForGood | crates/engine/src/lib.rs:204-218 | for every configuration whose limit is not 0: a run in which the seed is completed unfetched because the breaker is open; after every restart it is visited and not queued; what every refusal of the breaker or of robots.txt does, in all runs, is Verdicts.RefusedLeavesNothing |
| Drops.NoDrops | crates/engine/src/lib.rs:191-247 | on any store, no run drops an item without a limit, with a limit of 0, or with one worker |
| Drops.DropsNeedARace | crates/engine/src/lib.rs:229-247 | some crawl of n workers under this limit drops an item if and only if n is at least 2 and there is a limit of at least 1 |
| OneWorker.ShortestAlways | crates/engine/src/lib.rs:313-335 | with one worker, in every state of every schedule, every URL was accepted at its shortest distance, given distinct fingerprints within `max_depth` |
| OneWorker.ShortestNeedsOneWorker | crates/engine/src/lib.rs:319-335 | depths are shortest distances in all such crawls of n workers if and only if n is 1 |
| OneWorker.OneWorkerBfs | crates/engine/src/lib.rs:178-370 | a drained crawl of one worker accepted exactly the URLs within `max_depth`, each at its shortest distance, if and only if no two of them share a fingerprint |
| OneWorker.SoloAgrees | crates/engine/src/lib.rs:178-370 | the list of the one-worker program and the transition system with one worker hold the same URLs at the same depths |
| ScopeOrder.ScopeOrdering | crates/engine/src/lib.rs:99-105 | for every configuration and store: in all sessions pages below depth 0 are expanded only after an answer at depth 0, if and only if the limit is 0 or no row of the store is between depth 0 and `max_depth` |
| ScopeOrder.DeepRowFirst | crates/engine/src/lib.rs:99-105 | for every configuration whose limit is not 0 and every store with such a row: a session, started as `with_store` starts it, that expands the row before anything at depth 0 was answered |
| Resume.TrackedAlways | crates/engine/src/lib.rs:313-345 | over any number of processes without drops: every completed item was answered, and its links, under the scope host its page was given, were accepted at some time |
| Resume.BackedAlways | crates/frontier/src/frontier.rs:98-122 | where restarts do not change the scope, after any crash every URL ever accepted is visited, linked from a page that still has its row, or the seed about to be pushed; and it is reachable at its depth |
| Resume.ResumeCovers | crates/frontier/src/frontier.rs:54-93 | such a crawl, drained and uncut in its last process, without window losses or drops, on distinct fingerprints, accepted every reachable URL, wherever its processes died |
| Stranded.ResumeStuck | crates/engine/src/lib.rs:105 | in every state of a session on tables with the seed in `seen` and no row at depth 0, the scope is the literal host of the seed, and with `same_domain` whatever was accepted is on that host |
| Stranded.PageStranded | crates/engine/src/lib.rs:313-323 | for every configuration and host that meet the condition: a run of three processes, nothing lost in the window or dropped, drained and uncut, that never accepts a URL two links from the seed |
| Stranded.ResumeCompleteness | crates/engine/src/lib.rs:99-105 | for every configuration and host: all such runs on all sites whose seed answers from that host accept every reachable URL, if and only if not (`same_domain`, a host other than the seed's literal one, `max_depth` at least 2, a limit other than 0, and two URLs of that host with fingerprints of their own) |
| Stranded.ResumeDrains | crates/frontier/src/frontier.rs:54-93 | a crawl without a limit that died anywhere outside the window can be resumed and run to such an end, on every site |
| Drains.DrainedRunExists | crates/engine/src/lib.rs:178-374 | every configuration without a budget, on every site and with any number of workers, has a drained run |
| Drains.CoverageHappens | crates/engine/src/lib.rs:319-335 | for any number of workers, a crawl that meets all conditions of the coverage results and accepts every reachable URL |
| Drains.PagesUncounted | crates/engine/src/lib.rs:386-392 | a finished crawl without a limit that has pages and reports 0 fetched |
| Drains.NothingCountedAsOne | crates/engine/src/lib.rs:386-397 | for every configuration without a budget, a finished crawl of an empty queue that reports one URL too many |
| Storage.FrontierStore.Load | crates/frontier/src/store.rs:57-100 | requeues the leases, returns all rows' items in pop order, and the largest sequence number |
| Storage.FrontierStore.MarkSeen | crates/frontier/src/store.rs:102-108 | adds the fingerprint |
| Storage.FrontierStore.Enqueue | crates/frontier/src/store.rs:110-127 | writes or replaces the row |
| Storage.FrontierStore.MarkInflight | crates/frontier/src/store.rs:129-135 | leases the row if there is one |
| Storage.FrontierStore.Complete | crates/frontier/src/store.rs:137-143 | deletes the row |
| Storage.InsertOrdered | crates/frontier/src/store.rs:72-76 | the ordering by priority, then sequence, keeps order and contents |
| FrontierQueue.Frontier.WithStore | crates/frontier/src/frontier.rs:58-93 | starts from exactly what the tables hold: the queue, the visited set, `pending`, the next sequence number; its shared state is the transition system's start on these tables; fit to go on if the tables are sane |
| FrontierQueue.Frontier.TryPush | crates/frontier/src/frontier.rs:98-139 | accepted if and only if the canonical URL's fingerprint is new; the whole new state in both cases, store included |
| FrontierQueue.PushStagesTogether | crates/frontier/src/frontier.rs:105-137 | the stages of a push in the transition system add up to what the class does |
| FrontierQueue.Frontier.Poll | crates/frontier/src/frontier.rs:145-178 | one round of `pop`: None if stopped or drained, else the top item, leased, whose URL would be refused again |
| FrontierQueue.Frontier.FindTop | crates/frontier/src/item.rs:35-41 | no other item ranks above the one popped |
| FrontierQueue.Frontier.Complete | crates/frontier/src/frontier.rs:198-211 | one less pending, row deleted |
| SoloCrawl.PushLinks | crates/engine/src/lib.rs:319-335 | every in-scope link of the page is known afterwards at most one level deeper; new ones are queued one level deeper and counted |
| SoloCrawl.TopIsShallowest | crates/frontier/src/scheduler.rs:16-20 | the item popped is on the lowest open level, and the queue is at most one level ahead |
| SoloCrawl.ReachKnown | crates/engine/src/lib.rs:319-335 | what d in-scope links reach, d up to the level in work, is known at depth at most d under its own URL, given distinct fingerprints within `max_depth` |
| SoloCrawl.Exhausted | crates/engine/src/lib.rs:196-199 | with an empty queue, every URL within `max_depth` was processed if and only if no two of them share a fingerprint |
| SoloCrawl.CrawlAlone | crates/engine/src/lib.rs:178-370 | one worker, no store: the loop ends; the processed list is by level, every item at the end of a path as long as its depth; with distinct fingerprints all depths are shortest, even when stopped; unless stopped it is the exact breadth-first search if and only if fingerprints within `max_depth` are distinct; pages, errors and skips are those of the list, in order, and add up; the limit holds; it stops if and only if the limit is reached or the clock is past the deadline before the next item, and was not before any earlier one |
| SoloCrawl.ReportAddsUp | crates/engine/src/lib.rs:350-369 | every processed item is one page, one error or one skip |
| SoloCrawl.ReportLists | crates/engine/src/lib.rs:350-367 | the pages are the served items of the list in its order, each with its depth and the links of its response; the error list is the failed ones; refused ones are in neither |
| Lcs.IsLongest | crates/parser/src/adaptive.rs:732-768 | the recurrence is the true maximum: a common subsequence of that length exists and none is longer |
| Lcs.SimilarityLaws | crates/parser/src/adaptive.rs:732-735 | between 0 and 1, symmetric, 1 if and only if the sequences are equal |
| Lcs.FillRow | crates/parser/src/adaptive.rs:755-763 | one pass turns the stale row into the next row of lengths |
| Lcs.SequenceSimilarity | crates/parser/src/adaptive.rs:744-768 | the two swapped rows compute the similarity, empty sequences included |
| Ranking.Reported.InsertCandidate | crates/parser/src/adaptive.rs:770-782 | the list kept is the first 256 of the ranking of all that was scanned |
| Ranking.SortedIsRanking | crates/parser/src/adaptive.rs:770-774 | the ranking holds the same candidates, by confidence down, then index up |
| Ranking.RankingUnique | crates/parser/src/adaptive.rs:770-774 | a ranking is determined by its contents |
| Ranking.CutCommutes | crates/parser/src/adaptive.rs:779-781 | cutting before an insertion loses nothing of the first n |
| Ranking.FirstIsBest | crates/parser/src/adaptive.rs:194-204 | the head is the earliest element of highest confidence |
| Text.NormalizeWs | crates/parser/src/adaptive.rs:664-681 | the loop yields the words with one blank between |
| Text.NormalWsIdempotent | crates/parser/src/adaptive.rs:664-681 | normalising again changes nothing |
| Text.SplitJoined | crates/parser/src/adaptive.rs:664-697 | splitting undoes joining |
| Text.NormalValueIdempotent | crates/parser/src/adaptive.rs:683-693 | idempotent if and only if nothing was cut, the limit is 0, or the last character kept is not a blank |
| Text.TrailingBlank | crates/parser/src/adaptive.rs:683-693 | an input on which it is not |
| Text.CollectText | crates/parser/src/adaptive.rs:448-466 | the first characters of all segments together, normalised |
| Text.Tokenize | crates/parser/src/adaptive.rs:695-712 | the first tokens, cleaned and lowered; a limit of 0 still yields one |
| Text.WordsSplit | crates/parser/src/adaptive.rs:664-697 | a white-space character anywhere separates: the words are those before it and those after it |
| Text.WordsOfOne | crates/parser/src/adaptive.rs:664-697 | a text without white space is one word, or none if it is empty |
| Text.CleanedMeans | crates/parser/src/adaptive.rs:698-703 | character by character: a letter or digit gives its lower case, anything else nothing |
| Text.TokensMean | crates/parser/src/adaptive.rs:697-706 | one token a word, none for a word without letters and digits |
| Text.FirstTokensMean | crates/parser/src/adaptive.rs:704-709 | the first `max_tokens` of them or all, one if the limit is 0 |
| Attributes.JaccardLaws | crates/parser/src/adaptive.rs:714-730 | between 0 and 1, symmetric, 1 if and only if the same tokens, 0 if and only if none shared (not both empty) |
| Attributes.CompareAttrs | crates/parser/src/adaptive.rs:588-617 | the loop computes half the name overlap plus half the mean value similarity |
| Attributes.AttrBounds | crates/parser/src/adaptive.rs:588-617 | between 0 and 1 |
| Attributes.SameAttrs | crates/parser/src/adaptive.rs:588-617 | 1 against itself if names are unique |
| Attributes.NothingShared | crates/parser/src/adaptive.rs:610-616 | a half if no name is shared and the lists are not both empty |
| Attributes.CompareKeys | crates/parser/src/adaptive.rs:619-642 | the mean over the key attributes the fingerprint has, absent ones counting 0 |
| Attributes.KeyBounds | crates/parser/src/adaptive.rs:619-635 | between 0 and 1, and 1 for equal lists |
| Attributes.ValueMeans | crates/parser/src/adaptive.rs:644-658 | equal values 1; an empty one against another 0; otherwise the share of common tokens among all, 64 of each value at most, 1 if neither has any |
| Attributes.AttrsMean | crates/parser/src/adaptive.rs:588-617 | half the share of common names plus half the mean over the shared names |
| Attributes.MatchesMean | crates/parser/src/adaptive.rs:602-609 | each attribute of the fingerprint adds one value similarity if the candidate has its name, and nothing otherwise |
| Attributes.FirstMeans | crates/parser/src/adaptive.rs:604-607 | the value compared is that of the first attribute with exactly that name |
| Attributes.LookupMeans | crates/parser/src/adaptive.rs:637-642 | a key is looked up as the first attribute of the same letters up to ASCII case |
| Attributes.KeysMean | crates/parser/src/adaptive.rs:619-635 | the mean over class, id, href and src, without those the fingerprint lacks and with 0 for those only the candidate lacks |
| Scores.OverlapLaws | crates/parser/src/adaptive.rs:732-768 | the length of a common subsequence that no other exceeds, divided by the longer length, is 1 if and only if the lists are equal and 0 if and only if they share nothing (not both empty) |
| Scores.ScoredMeans | crates/parser/src/adaptive.rs:521-586 | for every element: text, path, siblings and children are such shares of the two lists (text 1 if none is wanted, children 1 if switched off), tag is equality, parent 0.4 + 0.3 attributes + 0.3 text if the parents' tags agree, 1 if neither has one and else 0 |
| Scores.TextLaws | crates/parser/src/adaptive.rs:528-534 | the text signal is 1 if and only if no text is wanted or the tokens are the same, 0 if and only if a text is wanted and no token is shared |
| Scores.Worth | crates/parser/src/adaptive.rs:72-80 | the confidence is 15, 20, 20, 10, 15, 10, 5 and 5 times the signals, within a half |
| Scores.OneMissing | crates/parser/src/adaptive.rs:563-572 | with one signal 0 and the others 1 the confidence is 85, 80, 80, 90, 85, 90, 95 or 95 |
| Scores.TextIsAFifth | crates/parser/src/adaptive.rs:528-572 | an element that differs from the fingerprint in its text alone scores 80 plus a fifth of the text signal in percent: exactly 80 if no token is shared |
| Scores.ToldApart | crates/parser/src/adaptive.rs:246-331 | an element looked for in its own document is Found, at 100, whatever the threshold, if every other element has another tag or shares no token of its text |
| Scores.FiguresMean | crates/parser/src/adaptive.rs:246-331 | the number scanned, the threshold used and the highest confidence among the elements scanned |
| Scores.ListMeans | crates/parser/src/adaptive.rs:770-782 | the list is the 256 best elements, best first, of equals the earlier, and all others rank behind |
| Scores.AncestorsMean | crates/parser/src/adaptive.rs:468-481 | the elements among the 32 nearest nodes above, outermost first |
| Scores.SiblingsMean | crates/parser/src/adaptive.rs:487-507 | the elements among the 32 nearest nodes before, in document order, then those among as many nodes after as are left of 32 |
| Scores.CollectedMeans | crates/parser/src/adaptive.rs:434-466 | attributes by lower-case name and the first characters of the value with single blanks; the text's first characters, then with single blanks; the first 32 children |
| Scores.FingerprintMeans | crates/parser/src/adaptive.rs:209-240 | a fingerprint holds this of the element and its parent, with 4096 characters |
| Relocate.ContextBounded | crates/parser/src/adaptive.rs:27-29 | whatever the document, 32 tags of each kind and the character and token limits bound what is compared |
| Relocate.ConfidenceIsPercent | crates/parser/src/adaptive.rs:563-572 | every signal is a fraction, so the weighted sum needs no clamping and the confidence is it in percent, within a half, 0 to 100 |
| Relocate.RawInUnit | crates/parser/src/adaptive.rs:72-80 | the weights sum to 1: the score is 1 if and only if every signal is 1 |
| Relocate.ScoreElement | crates/parser/src/adaptive.rs:272-284 | the remembered parent context never changes a score |
| Relocate.ScoreSignals | crates/parser/src/adaptive.rs:521-586 | precomputed tokens give the signals of the plain definition, which Scores.ScoredMeans gives in tags, tokens and common subsequences |
| Relocate.TopExtends | crates/parser/src/adaptive.rs:286-297 | the running maximum and tie count after one more candidate |
| Relocate.Scan | crates/parser/src/adaptive.rs:258-308 | too large if and only if there are more elements than the limit; top, ties and list are those of all elements scanned |
| Relocate.Relocated | crates/parser/src/adaptive.rs:246-331 | the online scan equals the offline report |
| Relocate.StatusMeans | crates/parser/src/adaptive.rs:174-190 | each of TooLarge, NotFound, BelowThreshold and Found exactly when its condition on the document holds; a match heads the list |
| Relocate.UnchangedIsFound | crates/parser/src/adaptive.rs:209-240 | an element looked for in its own document scores 100 and is the match or ties at 100 |
| Politeness.TokenBucket.Reserve | crates/fetch/src/politeness.rs:39-47 | the wait up to the slot, and the schedule after it |
| Politeness.WindowBound | crates/fetch/src/politeness.rs:36-47 | k calls released in a window of length L satisfy (k - burst) * interval <= L, for every choice of calls and any clock readings |
| Politeness.BurstThenRate | crates/fetch/src/politeness.rs:25-47 | of many calls at one instant on a new bucket, `burst` go at once and the rest one interval apart |
| Politeness.ScheduleIsTokenBucket | crates/fetch/src/politeness.rs:12-16 | for a monotone clock the waits are those of a token counter that starts full, refills continuously up to `burst` and may go into debt |
| Politeness.PolitenessManager.WaitForSlot | crates/fetch/src/politeness.rs:119-149 | the start granted to the host, its new state, and no change to any other host; it is the first moment both limits allow (Politeness.GrantIsFirstAllowed, Politeness.StartAfterGrant) |
| Politeness.HalvesInOrder | crates/fetch/src/politeness.rs:114-118 | callers reach the second stage in the order of the first |
| Politeness.BothLimitsHold | crates/fetch/src/politeness.rs:119-149 | granted starts are at least the delay apart and meet the window bound, for every delay and interval |
| Politeness.DelayHolds | crates/fetch/src/politeness.rs:120-134 | the spacing without a rate limit |
| Politeness.GrantIsFirstAllowed | crates/fetch/src/politeness.rs:119-134 | the time granted to call i is the least that is no earlier than its clock reading and than every earlier granted time plus the delay |
| Politeness.IdleIsGranted | crates/fetch/src/politeness.rs:119-134 | a first call, or one to a host idle for the delay, is granted when it is made |
| Politeness.StartAfterGrant | crates/fetch/src/politeness.rs:136-149 | without a rate limit a call starts when granted; with one, later by exactly what the token counter asks for at the granted times |
| Politeness.PacedIsRun | crates/fetch/src/politeness.rs:119-149 | what the manager does for a call after any others is the next entry of such a run |
| Urls.NormalizeIdempotent | crates/core/src/normalize.rs:61-101 | a canonical form under every set of rules |
| Urls.PathIdempotent | crates/core/src/normalize.rs:103-119 | collapsing and the slash policy, together |
| Urls.QueryCanonical | crates/core/src/normalize.rs:121-149 | with sorting, two queries rewrite equally if and only if, tracking aside, each key has the same values in order |
| Urls.SortStable | crates/core/src/normalize.rs:137-139 | sorting keeps the order of each key's values |
| Urls.SortSorted | crates/core/src/normalize.rs:137-139 | sorting orders the keys and keeps the pairs |
| Urls.CollapseShape | crates/core/src/normalize.rs:151-166 | no double slash is left; a trailing slash stays |
| Canonical.KeepSelects | crates/core/src/normalize.rs:121-135 | the filter keeps, in order, exactly the pairs whose key is none of the tracking names up to ASCII case, or all if it is off |
| Canonical.QueryMeans | crates/core/src/normalize.rs:121-149 | with a query rule on, each key's values after normalising are none if it is a tracking name and the filter is on, and those of the query before otherwise, in order |
| Canonical.QueryPairs | crates/core/src/normalize.rs:121-149 | the pairs after normalising are the surviving ones, in their old order or, with sorting, in that of their keys; none at all gives no query |
| Canonical.LeqMeans | crates/core/src/normalize.rs:137-139 | keys are ordered by the first character in which they differ, a prefix first |
| Canonical.FieldsMean | crates/core/src/normalize.rs:61-101 | rule by rule: the host is lowered letter by letter, the port goes exactly if it is 80 for http or 443 for https, the fragment exactly if it is to be stripped; the scheme stays; without a query rule the query stays |
| Canonical.PathMeans | crates/core/src/normalize.rs:103-119 | the path loses exactly the slashes that follow a slash; then one trailing slash is added, removed or left as the policy says |
| UrlBuffer.CollapseSlashes | crates/core/src/normalize.rs:151-166 | the loop computes the collapsed path |
| UrlBuffer.SortInPlace | crates/core/src/normalize.rs:137-139 | the array ends sorted by key, equal keys in their old order |
| UrlBuffer.Buffer.ApplyTrailingSlashPolicy | crates/core/src/normalize.rs:103-119 | the policy, in place |
| UrlBuffer.Buffer.RewriteQueryInPlace | crates/core/src/normalize.rs:121-149 | the query without tracking pairs, sorted if asked, None if empty; Canonical.QueryPairs says which pairs these are |
| UrlBuffer.Buffer.NormalizeInPlace | crates/core/src/normalize.rs:61-101 | the guarded in-place edits reach the canonical form, a fixed point |
| Breaker.DomainHealthTracker.IsAvailable | crates/fetch/src/health.rs:111-128 | the answer and the host's new record; other hosts unchanged |
| Breaker.DomainHealthTracker.RecordResponse | crates/fetch/src/health.rs:135-166 | the host's new record, which Statuses.CountersByStatus, Statuses.FailuresSince and Statuses.CircuitBy give by status; other hosts unchanged |
| Statuses.CountersByStatus | crates/fetch/src/health.rs:139-158 | in every run `successes` is the number of replies in 200..399, `failures_429` of 429, `failures_403` of 403, `failures_5xx` of 500..599, `failures_4xx` of all others |
| Statuses.FailuresSince | crates/fetch/src/health.rs:139-160 | in every run of questions and replies the failure count is the number of replies 429, 403 or 500..599 since the last reset, which is a reply in 200..399 or a question that found the cooldown over; after such a question the threshold less one is added |
| Statuses.CircuitBy | crates/fetch/src/health.rs:118-163 | the circuit is open if and only if at least the threshold of such replies came since the last reset, or at least one if that was a question; half-open if and only if it was a question and none came |
| Statuses.LimitedOpens | crates/fetch/src/health.rs:150-165 | after n replies of 429 alone `failures_429` is n, and the circuit is open if and only if n is at least the threshold |
| Statuses.CooldownByOpenings | crates/fetch/src/health.rs:160-165 | the cooldown is the base doubled once for each opening since the last success, at most 600 s from the first doubling on; each opening sets the deadline to its time plus the cooldown before it |
| Statuses.RefusedWhile | crates/fetch/src/health.rs:111-128 | a question is refused if and only if the circuit is open and its deadline lies ahead |
| Breaker.BreakerInvariant | crates/fetch/src/health.rs:111-166 | in every run: Closed means fewer failures than the threshold, HalfOpen exactly one fewer, Open at least as many and a deadline |
| Breaker.CountersExact | crates/fetch/src/health.rs:139-158 | each counter is the number of such responses, and they sum to `requests` |
| Breaker.CooldownFormula | crates/fetch/src/health.rs:160-165 | after k strikes since the last success the cooldown is the base doubled k times, capped from the second on; each opening waits that long |
| Breaker.NothingBeforeDeadline | crates/fetch/src/health.rs:115-126 | after an opening nobody is admitted before its deadline without a success, in all runs, if and only if the base is at most the cap |
| Breaker.OpeningsSpread | crates/fetch/src/health.rs:160-165 | in serial use each opening comes no earlier than all earlier cooldowns after the first opening |
| Breaker.HalfOpenAdmitsAll | crates/fetch/src/health.rs:107-116 | once half-open, every request is admitted until a response |
| Breaker.HalfOpenAdmitsTwo | crates/fetch/src/health.rs:107-128 | after as many failures as the threshold and the cooldown, the circuit is half-open and admits two more questions before any response |

## Left out

- HTTP transport, redirects, retries and back-off: a fetch is an oracle that ends. Retries inside one fetch do not pass the pacing again, so the bounds are on granted slots.
- Browser rendering, robots parsing, IP filtering and the challenge classifiers: part of the page or verdict oracle.
- HTML parsing and DOM traversal: an element is a record of what traversal shows of it.
- URL parsing, percent-encoding and form encoding (section 5 of the WHATWG URL Standard): a URL is its parsed record, http and https only, and its query the list of decoded pairs.
- `to_lowercase` of a host: a host in the `url` crate is ASCII by then.
- The hash behind `fingerprint`: any function; where a result needs different URLs to have different values, it says for which URLs (`Distinct`).
- SQLite write failures, WAL, panics and lock poisoning: each statement is atomic and durable, crashes come between steps.
- `with_store` skips rows whose URL does not parse: the rows it wrote always do, so the model has no such rows.
- `BinaryHeap` internals: the queue is searched for a top item of the repository's own order.
- `tokio` scheduling, fairness and weak memory: any interleaving, sequentially consistent. A permit is released with the step that completes its item, at the end of the loop body.
- Of a page record the model has URL, depth and links; status, content type, metadata, body size and final URL are copied from the response.
- Time of day: the deadline is an oracle in the protocol and in `SoloCrawl.CrawlAlone`.
- SoloCrawl.CrawlAlone: the verdict is a function of the URL, which loses nothing because each URL is processed once; spurious compare-exchange failures are left to the protocol.
- Politeness.BothLimitsHold: sleeps are exact, as the granted times cannot say more; overflow of Instant and Duration is left out.
- Politeness.PolitenessManager.WaitForSlot: both stages in one call; they use different tables, so another caller between them makes no difference (Politeness.HalvesInOrder gives the order of the second stage). The conversion of a rate in requests per second to an interval is not part of this model.
- Breaker.DomainHealthTracker.RecordResponse: counters do not wrap.
- Attributes.CompareAttrs: a list with a repeated name may score less than 1 against itself; HTML parsers do not produce one.
- Floating-point rounding of the scores: reals.
- Comparing an owned tag list with a borrowed one: both are sequences here.
- CLI, output formats, Python bindings, tools and benches.
