// When a resumed crawl leaves pages behind: every process starts with the literal host
// of the seed as its scope, so where the seed redirects to another host, a process that
// does not fetch the seed again discards that host's links
// (crates/engine/src/lib.rs:99-105, 313-323).
module Stranded {
  import opened Prelude
  import opened Urls
  import opened Protocol
  import opened Census
  import opened Wakeups
  import opened Recovery
  import opened Coverage
  import opened Scripts
  import opened Resume
  import Accounting
  import Drains
  import Drops
  import Races
  import Termination

  // ----- a process that finds the seed completed -----

  // Below the seed, and looking at links under the seed's literal host.
  predicate Stuck(c: Config, p: Phase) {
    match p
    case Seeding(_, _) => false
    case Busy(item, task) =>
      item.depth > 0 &&
      (match task
       case Expanding(e) => e.host == c.seed.host
       case Pushing(e, child, _) => e.host == c.seed.host && child.depth > 0
       case Tallying(e) => e.host == c.seed.host
       case _ => true)
    case _ => true
  }

  ghost predicate OnSeedHost(c: Config, url: Url) { exists link: Url :: link.host == c.seed.host && c.Norm(link) == url }

  // What was accepted since the start is on the seed's literal host.
  ghost predicate NewOnSeedHost(c: Config, start: State, s: State) {
    c.sameDomain ==> forall b :: b in s.h.born ==> b in start.h.born || OnSeedHost(c, b.0)
  }

  ghost predicate AllStuck(c: Config, start: State, s: State) {
    && c.fp(Root(c)) in s.f.visited && s.scope == c.seed.host && NewOnSeedHost(c, start, s)
    && (forall item :: item in s.f.queue ==> item.depth > 0)
    && (forall i :: 0 <= i < |s.ws| ==> Stuck(c, s.ws[i]))
  }

  lemma MoveStuck(c: Config, s: State, w: nat, o: Oracle)
    requires Enabled(c, s, w, o) && Stuck(c, s.ws[w]) && c.fp(Root(c)) in s.f.visited && s.scope == c.seed.host
    requires forall item :: item in s.f.queue ==> item.depth > 0
    ensures Stuck(c, Move(c, s, w, o).0)
  {
    if s.ws[w].Busy? { TaskStuck(c, s, s.ws[w].item, s.ws[w].task, o); }
  }

  lemma TaskStuck(c: Config, s: State, item: Item, task: Task, o: Oracle)
    requires TaskEnabled(c, s, item, task, o) && Stuck(c, Busy(item, task)) && s.scope == c.seed.host
    ensures Stuck(c, MoveTask(c, s, item, task, o).0)
  {
  }

  lemma TurnStuck(c: Config, start: State, s: State, w: nat, o: Oracle)
    requires AllStuck(c, start, s) && Enabled(c, s, w, o)
    ensures var turn := TurnOf(c, s, s.ws[w], o);
      && !turn.Rescopes? && (turn.Enqueues? ==> turn.child.depth > 0)
      && (turn.NewChild? && c.sameDomain ==> OnSeedHost(c, turn.child.url))
  {
    assert Stuck(c, s.ws[w]);
    if TurnOf(c, s, s.ws[w], o).NewChild? && s.ws[w].Busy? {
      var e := s.ws[w].task.e;
      assert c.sameDomain ==> e.links[e.next].host == c.seed.host;
    }
  }

  lemma StuckStep(c: Config, start: State, s: State, w: nat, o: Oracle)
    requires AllStuck(c, start, s) && Enabled(c, s, w, o)
    ensures AllStuck(c, start, Step(c, s, w, o))
  {
    assert Stuck(c, s.ws[w]);
    MoveStuck(c, s, w, o);
    TurnStuck(c, start, s, w, o);
    MoveAfter(c, s, w, o);
    MoveDisturbs(c, s, w, o);
    StuckKept(c, start, s, TurnOf(c, s, s.ws[w], o), Move(c, s, w, o).1);
    StuckAssembled(c, start, s, Move(c, s, w, o).1, w, o.pick, Move(c, s, w, o).0);
  }

  lemma StuckAssembled(c: Config, start: State, s: State, t: State, w: nat, pick: nat, p: Phase)
    requires AllStuck(c, start, s) && Disturbed(s.ws, t.ws, w, pick) && Stuck(c, p)
    requires c.fp(Root(c)) in t.f.visited && t.scope == c.seed.host && NewOnSeedHost(c, start, t)
    requires forall item :: item in t.f.queue ==> item.depth > 0
    ensures AllStuck(c, start, t.(ws := t.ws[w := p]))
  {
  }

  lemma StuckKept(c: Config, start: State, s: State, turn: Turn, t: State)
    requires AllStuck(c, start, s) && After(c, s, turn, t) && !turn.Rescopes?
    requires turn.Enqueues? ==> turn.child.depth > 0
    requires turn.NewChild? && c.sameDomain ==> OnSeedHost(c, turn.child.url)
    ensures c.fp(Root(c)) in t.f.visited && t.scope == c.seed.host && NewOnSeedHost(c, start, t)
    ensures forall item :: item in t.f.queue ==> item.depth > 0
  {
  }

  // With the seed in `seen` and no row at depth 0, the scope never moves from the seed's
  // literal host, and in a same-domain crawl nothing off that host is accepted.
  lemma {:induction false} ResumeStuck(c: Config, d: Tables, n: nat, seq0: nat, h: History, run: seq<State>)
    requires IsRun(c, run) && n >= 1 && run[0] == Start(c, n, d, seq0, h) && c.fp(Root(c)) in d.seen
    requires forall fp :: fp in d.rows ==> d.rows[fp].item.depth > 0
    ensures AllStuck(c, run[0], Last(run))
  {
    if |run| == 1 {
      SpawnShape(n);
    } else {
      var w, o := LastStep(c, run);
      ResumeStuck(c, d, n, seq0, h, run[..|run| - 1]);
      StuckStep(c, run[0], run[|run| - 2], w, o);
    }
  }

  // ----- when a restart makes a difference -----

  // The seed is answered, in the end from this host.
  predicate SeedAnswers(c: Config, site: Site, host: string) {
    site(Root(c)).Some? && site(Root(c)).value.finalHost == host
  }

  // Drained, not cut at `max_depth`, on a site whose URLs have fingerprints of their own.
  ghost predicate WholeRun(c: Config, site: Site, run: seq<State>) {
    Drained(c, site, run) && !CutShort(c, site, Last(run)) && Distinct(c, site, c.maxDepth + 1)
  }

  ghost predicate AlwaysResumes(c: Config, host: string) {
    forall site, run :: SeedAnswers(c, site, host) && WholeRun(c, site, run) ==> Covers(c, site, Last(run))
  }

  // Two links on the host whose URLs and the seed have three fingerprints.
  predicate TwoLinks(c: Config, host: string, a: Url, b: Url) {
    && a.host == host && b.host == host && c.fp(c.Norm(a)) != c.fp(c.Norm(b))
    && c.fp(c.Norm(a)) != c.fp(Root(c)) && c.fp(c.Norm(b)) != c.fp(Root(c))
  }

  ghost predicate TwoPages(c: Config, host: string) { exists a, b :: TwoLinks(c, host, a, b) }

  // The scope is by host, the seed's answer moves it, something may be fetched, and there
  // is room for a page between the seed and `max_depth`.
  ghost predicate Strands(c: Config, host: string) {
    c.sameDomain && host != c.seed.host && c.maxDepth >= 2 && c.maxUrls != Some(0) && TwoPages(c, host)
  }

  // ----- nothing may be fetched: nothing is ever drained -----

  predicate TurnedOut(s: State) {
    forall i :: 1 <= i < |s.ws| && !s.ws[i].Top? && !s.ws[i].Halting? ==> s.f.stopped
  }

  lemma TurnedOutStep(c: Config, s: State, w: nat, o: Oracle)
    requires Crew(s) && Drops.AllTurned(s) && TurnedOut(s) && c.maxUrls == Some(0) && s.t.fetched >= 0 && Enabled(c, s, w, o)
    ensures TurnedOut(Step(c, s, w, o))
  {
    MoveDisturbs(c, s, w, o);
    assert MainPhase(s.ws[w]) || Drops.Turned(s.ws[w]);
    MoveAfter(c, s, w, o);
  }

  lemma {:induction false} TurnedOutAlways(c: Config, run: seq<State>)
    requires Accounting.Counted(c, run) && c.maxUrls == Some(0)
    ensures TurnedOut(Last(run))
  {
    if |run| == 1 {
      var n: nat, d, seq0: nat, h :| n >= 1 && run[0] == Start(c, n, d, seq0, h);
      SpawnShape(n);
    } else {
      var w, o := LastStep(c, run);
      var before := run[..|run| - 1];
      AlertAlways(c, before);
      Accounting.BooksAlways(c, before);
      Drops.TurnedAlways(c, before);
      TurnedOutAlways(c, before);
      TurnedOutStep(c, Last(before), w, o);
    }
  }

  lemma NothingDrains(c: Config, run: seq<State>)
    requires LongRun(c, run) && Finished(Last(run)) && c.maxUrls == Some(0)
    ensures Last(run).f.stopped
  {
    var tail := LastSession(c, run);
    AlertAlways(c, tail);
    TurnedOutAlways(c, tail);
    assert Last(run).ws[1].Exited?;
  }

  // ----- one page besides the seed: it is found before the scope can be lost -----

  // Only the seed has the seed's fingerprint, and what else was accepted began with one
  // of the seed's own links.
  ghost predicate SeedFirst(c: Config, site: Site, s: State) {
    && (forall b :: b in s.h.born && c.fp(b.0) == c.fp(Root(c)) ==> b == (Root(c), 0))
    && (SeedAlone(c, s) || SeedLinkBorn(c, site, s))
  }

  predicate SeedAlone(c: Config, s: State) { forall b :: b in s.h.born ==> b == (Root(c), 0) }

  ghost predicate SeedLinkBorn(c: Config, site: Site, s: State) {
    exists b :: b in s.h.born && Links(c, site, Root(c), b.0) && c.fp(b.0) != c.fp(Root(c))
  }

  lemma LinkStays(c: Config, site: Site, s: State, t: State)
    requires SeedLinkBorn(c, site, s) && s.h.born <= t.h.born
    ensures SeedLinkBorn(c, site, t)
  {
    var b :| b in s.h.born && Links(c, site, Root(c), b.0) && c.fp(b.0) != c.fp(Root(c));
    assert b in t.h.born;
  }

  // A link of the seed is claimed under the host the seed's answer gave.
  lemma SeedLinkClaimed(c: Config, site: Site, s: State, item: Item, e: Expansion)
    requires GoodExpansion(c, site, s, item, e) && Key(item) == (Root(c), 0) && c.fp(Root(c)) in s.f.visited
    requires LinkTurn(c, s, item, e).NewChild?
    ensures var child := LinkTurn(c, s, item, e).child; Links(c, site, Root(c), child.url) && c.fp(child.url) != c.fp(Root(c))
  {
    assert site(Root(c)).value.links[e.next] == e.links[e.next];
  }

  lemma SeedFirstStep(c: Config, site: Site, s: State, w: nat, o: Oracle)
    requires Tracked(c, site, s) && SeedFirst(c, site, s) && Crew(s) && Enabled(c, s, w, o)
    requires !s.ws[0].Booting? ==> c.fp(Root(c)) in s.f.visited
    ensures SeedFirst(c, site, Step(c, s, w, o))
  {
    MoveAfter(c, s, w, o);
    NewAfterSeed(c, site, s, w, o);
    SeedFirstKept(c, site, s, TurnOf(c, s, s.ws[w], o), Step(c, s, w, o));
  }

  // The seed, or something else after it; directly after it, one of its links.
  ghost predicate AfterSeed(c: Config, site: Site, s: State, child: Item) {
    Key(child) == (Root(c), 0) ||
    (c.fp(child.url) != c.fp(Root(c)) && (SeedAlone(c, s) ==> Links(c, site, Root(c), child.url)))
  }

  lemma NewAfterSeed(c: Config, site: Site, s: State, w: nat, o: Oracle)
    requires Tracked(c, site, s) && Crew(s) && Enabled(c, s, w, o)
    requires !s.ws[0].Booting? ==> c.fp(Root(c)) in s.f.visited
    ensures var turn := TurnOf(c, s, s.ws[w], o); turn.NewChild? ==> AfterSeed(c, site, s, turn.child)
  {
    assert Good(c, site, s, s.ws[w]);
    if s.ws[w].Busy? && TurnOf(c, s, s.ws[w], o).NewChild? && SeedAlone(c, s) {
      SeedLinkClaimed(c, site, s, s.ws[w].item, s.ws[w].task.e);
    }
  }

  lemma SeedFirstKept(c: Config, site: Site, s: State, turn: Turn, s': State)
    requires SeedFirst(c, site, s) && (turn.NewChild? ==> AfterSeed(c, site, s, turn.child))
    requires s'.h.born == s.h.born + (if turn.NewChild? then {Key(turn.child)} else {})
    ensures SeedFirst(c, site, s')
  {
    if SeedLinkBorn(c, site, s) { LinkStays(c, site, s, s'); }
    if turn.NewChild? { assert Key(turn.child) in s'.h.born; }
  }

  lemma {:induction false} SeedFirstAlways(c: Config, site: Site, run: seq<State>)
    requires FairRun(c, site, run)
    ensures SeedFirst(c, site, Last(run))
  {
    if |run| > 1 {
      var s := run[|run| - 2];
      LongRunLast(c, run);
      FairBefore(c, site, run);
      SeedFirstAlways(c, site, run[..|run| - 1]);
      if Crash(c, s, Last(run)) {
        assert Last(run).h.born == s.h.born;
        if SeedLinkBorn(c, site, s) { LinkStays(c, site, s, Last(run)); }
      } else {
        var w: nat, o :| Enabled(c, s, w, o) && Last(run) == Step(c, s, w, o);
        TrackedAlways(c, site, run[..|run| - 1]);
        var tail := LastSession(c, run[..|run| - 1]);
        SeedPushed(c, tail);
        SeedFirstStep(c, site, s, w, o);
      }
    }
  }

  // The seed itself was accepted and answered.
  lemma SeedDone(c: Config, site: Site, run: seq<State>)
    requires Drained(c, site, run)
    ensures DoneWell(c, site, Last(run), (Root(c), 0))
  {
    RootVisited(c, run);
    SeedFirstAlways(c, site, run);
    var key := DoneItem(c, site, run, c.fp(Root(c)));
    assert key == (Root(c), 0);
  }

  // If the seed links to anything else, one of its links was accepted.
  lemma SeedLinkFound(c: Config, site: Site, run: seq<State>, to: Url) returns (x: Url)
    requires Drained(c, site, run) && Distinct(c, site, c.maxDepth + 1) && c.maxDepth >= 1
    requires Links(c, site, Root(c), to) && to != Root(c)
    ensures Claimed(Last(run), x) && Links(c, site, Root(c), x) && c.fp(x) != c.fp(Root(c))
  {
    var s := Last(run);
    SeedDone(c, site, run);
    SeedFirstAlways(c, site, run);
    SeedLinkPrint(c, site, to);
    SeedLinksBorn(c, site, s, to);
    assert !SeedAlone(c, s);
    var b :| b in s.h.born && Links(c, site, Root(c), b.0) && c.fp(b.0) != c.fp(Root(c));
    assert (b.0, b.1) in s.h.born;
    x := b.0;
  }

  lemma SeedLinkPrint(c: Config, site: Site, to: Url)
    requires Distinct(c, site, c.maxDepth + 1) && Links(c, site, Root(c), to) && to != Root(c)
    ensures c.fp(to) != c.fp(Root(c)) && Reach(c, site, to, 1)
  {
    RootReached(c, site);
    ReachNext(c, site, Root(c), to, 0);
    if c.fp(to) == c.fp(Root(c)) { SamePrint(c, site, Root(c), 0, to, 1, c.maxDepth + 1); }
  }

  lemma SeedLinksBorn(c: Config, site: Site, s: State, to: Url)
    requires DoneWell(c, site, s, (Root(c), 0)) && c.maxDepth >= 1 && Links(c, site, Root(c), to)
    ensures Printed(c, s, c.fp(to))
  {
    var links := site(Root(c)).value.links;
    var k :| 0 <= k < |links| && c.InScope(ScopeOf(c, site), links[k]) && c.Norm(links[k]) == to;
  }

  function OneOf(a: Url, b: Url): (Url, nat) -> bool { (url: Url, d: nat) => url == a || url == b }

  // Without a pair, whatever the seed's link leads to is the seed or the link itself.
  lemma NoThird(c: Config, site: Site, host: string, x: Url, from: Url, to: Url)
    requires c.sameDomain && SeedAnswers(c, site, host) && !TwoPages(c, host) && Distinct(c, site, c.maxDepth + 1)
    requires c.maxDepth >= 1 && Links(c, site, Root(c), x) && c.fp(x) != c.fp(Root(c))
    requires (from == Root(c) || from == x) && Links(c, site, from, to)
    ensures to == Root(c) || to == x
  {
    var a := LinkOnHost(c, site, host, Root(c), x);
    var b := LinkOnHost(c, site, host, from, to);
    RootReached(c, site);
    ReachNext(c, site, Root(c), x, 0);
    var d := if from == Root(c) then 0 else 1;
    ReachNext(c, site, from, to, d);
    assert !TwoLinks(c, host, a, b);
    if c.fp(to) == c.fp(Root(c)) { SamePrint(c, site, Root(c), 0, to, d + 1, c.maxDepth + 1); }
    else { SamePrint(c, site, x, 1, to, d + 1, c.maxDepth + 1); }
  }

  lemma LinkOnHost(c: Config, site: Site, host: string, from: Url, to: Url) returns (link: Url)
    requires c.sameDomain && SeedAnswers(c, site, host) && Links(c, site, from, to)
    ensures link.host == host && c.Norm(link) == to
  {
    var links := site(from).value.links;
    var k :| 0 <= k < |links| && (c.sameDomain ==> links[k].host == ScopeOf(c, site)) && c.Norm(links[k]) == to;
    link := links[k];
  }

  lemma FewPagesCover(c: Config, site: Site, host: string, run: seq<State>)
    requires c.sameDomain && SeedAnswers(c, site, host) && !TwoPages(c, host) && c.maxDepth >= 1
    requires WholeRun(c, site, run)
    ensures Covers(c, site, Last(run))
  {
    var s := Last(run);
    var x := Root(c);
    SeedDone(c, site, run);
    assert Claimed(s, x);
    if to :| Links(c, site, Root(c), to) && to != Root(c) {
      x := SeedLinkFound(c, site, run, to);
      forall a, b | (a == Root(c) || a == x) && Links(c, site, a, b) ensures b == Root(c) || b == x {
        NoThird(c, site, host, x, a, b);
      }
    }
    forall url, d: nat | Reach(c, site, url, d) ensures Claimed(s, url) {
      ReachBy(c, site, OneOf(Root(c), x), url, d);
    }
  }

  // ----- two pages: the second is lost -----

  // The seed redirects to the host and links to a there, whose page links to b.
  function StrandSite(c: Config, host: string, a: Url, b: Url): Site {
    (url: Url) =>
      if url == Root(c) then Some(Response(host, [a]))
      else if url == c.Norm(a) then Some(Response(host, [b]))
      else None
  }

  function Spent(c: Config): nat { Bit(c.maxUrls.Some?) }

  function PrintsOf(c: Config, a: Url): set<Fp> { {c.fp(Root(c)), c.fp(c.Norm(a))} }

  function BornOf(c: Config, a: Url): set<(Url, nat)> { {(Root(c), 0), (c.Norm(a), 1)} }

  function SeedAnswer(c: Config, host: string, a: Url): ((Url, nat), Option<Response>) {
    ((Root(c), 0), Some(Response(host, [a])))
  }

  function PageAnswer(c: Config, host: string, a: Url, b: Url): ((Url, nat), Option<Response>) {
    ((c.Norm(a), 1), Some(Response(host, [b])))
  }

  // The first process fetches the seed and queues a...
  lemma SeedFetched(c: Config, host: string, a: Url) returns (run: seq<State>, seed: Item, e: Expansion)
    requires c.Valid() && c.maxDepth >= 2 && c.maxUrls != Some(0)
    ensures seed.url == Root(c) && e == Expansion(seed, host, [a], 0) && seed.depth == 0
    ensures SceneOf(c, run)
         == Scene(Fresh(c, 1), ReadyCrew(1)[1 := Busy(seed, Expanding(e))],
                  View(multiset{}, {c.fp(Root(c))}, false, Spent(c), host, {(Root(c), 0)}, {SeedAnswer(c, host, a)}))
  {
    run, seed := Races.SeedTaken(c, 1);
    TakenReady(1, seed);
    run, e := OpenPage(c, run, 1, seed, Response(host, [a]));
  }

  // ...and dies at its loop head.
  lemma FirstProcess(c: Config, host: string, a: Url, b: Url) returns (run: seq<State>, page: Item)
    requires c.Valid() && c.maxDepth >= 2 && c.maxUrls != Some(0) && TwoLinks(c, host, a, b)
    ensures page.url == c.Norm(a) && page.depth == 1
    ensures SceneOf(c, run)
         == Scene(Fresh(c, 1), ReadyCrew(1),
                  View(multiset{page}, PrintsOf(c, a), false, Spent(c), host, BornOf(c, a), {SeedAnswer(c, host, a)}))
  {
    var seed, e;
    run, seed, e := SeedFetched(c, host, a);
    run, page := PushOnlyLink(c, Fresh(c, 1), ReadyCrew(1), SceneOf(c, run).view, run, 1, seed, e, a);
    run := FinishPage(c, run, 1, seed, e.(next := 1));
  }

  // A process that dies with its only worker at the loop head, and the next one.
  lemma RestartAtRest(c: Config, run: seq<State>) returns (s': State)
    requires LongRun(c, run) && Last(run).ws == ReadyCrew(1) && Last(run).h.lost == {}
    ensures Crash(c, Last(run), s') && s'.h.lost == {} && s'.h.dropped == 0
    ensures SceneOf(c, [s'])
         == Scene(s', Spawn(1), View(Last(run).f.queue, Last(run).f.visited, false, 0, c.seed.host,
                                     Last(run).h.born, Last(run).h.answers))
  {
    var s := Last(run);
    var m := MaxSeqExists(s.d.rows);
    s' := Restart(c, s, 1, m);
    assert RestartsAs(c, s, 1, m, s');
    IdleCrash(c, run, s');
  }

  // The second process finds the seed completed and takes a, whose link is not on the
  // seed's literal host.
  lemma PageTaken(c: Config, host: string, a: Url, b: Url, start: State, page: Item, view: View)
    returns (run: seq<State>, e: Expansion)
    requires c.Valid() && c.maxDepth >= 2 && c.maxUrls != Some(0) && page.url == c.Norm(a) && page.depth == 1
    requires SceneOf(c, [start]) == Scene(start, Spawn(1), view) && !view.stopped && view.fetched == 0
    requires view.queue == multiset{page} && c.fp(Root(c)) in view.visited && view.scope == c.seed.host
    ensures e == Expansion(page, c.seed.host, [b], 0)
    ensures SceneOf(c, run)
         == Scene(start, ReadyCrew(1)[1 := Busy(page, Expanding(e))],
                  view.(queue := multiset{}, fetched := Spent(c), answers := view.answers + {PageAnswer(c, host, a, b)}))
  {
    run := SkipSeed(c, [start], 1);
    run := PopItem(c, run, 1, page);
    assert multiset{page} - multiset{page} == multiset{};
    TakenReady(1, page);
    run, e := OpenPage(c, run, 1, page, Response(host, [b]));
  }

  lemma SecondProcess(c: Config, host: string, a: Url, b: Url, start: State, page: Item, view: View)
    returns (run: seq<State>)
    requires c.Valid() && c.maxDepth >= 2 && c.maxUrls != Some(0) && page.url == c.Norm(a) && page.depth == 1
    requires c.sameDomain && b.host == host != c.seed.host
    requires SceneOf(c, [start]) == Scene(start, Spawn(1), view) && !view.stopped && view.fetched == 0
    requires view.queue == multiset{page} && c.fp(Root(c)) in view.visited && view.scope == c.seed.host
    ensures SceneOf(c, run)
         == Scene(start, ReadyCrew(1),
                  view.(queue := multiset{}, fetched := Spent(c), answers := view.answers + {PageAnswer(c, host, a, b)}))
  {
    var e;
    run, e := PageTaken(c, host, a, b, start, page, view);
    run := PassLink(c, run, 1, page, e);
    e := e.(next := 1);
    run := LinksDone(c, run, 1, page, e);
    run := RecordPage(c, run, 1, page, e.links);
    run := DeleteRow(c, run, 1, page, Fetched);
    run := GoHome(c, run, 1, page);
  }

  // The last one has nothing to do.
  lemma LastProcess(c: Config, start: State, view: View) returns (run: seq<State>)
    requires SceneOf(c, [start]) == Scene(start, Spawn(1), view) && !view.stopped && view.fetched == 0
    requires c.maxUrls != Some(0) && view.queue == multiset{} && c.fp(Root(c)) in view.visited
    ensures SceneOf(c, run) == Scene(start, ReadyCrew(1)[1 := Exited(false)], view)
  {
    run := SkipSeed(c, [start], 1);
    run := Approach(c, run, 1);
    run := LeaveEmpty(c, run, 1);
  }

  // ----- the three processes as one run -----

  lemma Joined(c: Config, run: seq<State>, next: seq<State>)
    requires LongRun(c, run) && Session(c, next) && Crash(c, Last(run), next[0])
    ensures LongRun(c, run + next) && Last(run + next) == Last(next)
  {
    var all := run + next;
    forall i | 0 < i < |all| ensures Next(c, all[i - 1], all[i]) || Crash(c, all[i - 1], all[i]) {
      if i < |run| {
        assert Next(c, run[i - 1], run[i]) || Crash(c, run[i - 1], run[i]);
      } else if i > |run| {
        assert Next(c, next[i - |run| - 1], next[i - |run|]);
      }
    }
  }

  // Without a limit, or with one worker, nothing is ever dropped.
  lemma NothingDropped(c: Config, run: seq<State>)
    requires Accounting.Counted(c, run) && (c.maxUrls.None? || |run[0].ws| == 2)
    ensures Undropped(run)
  {
    forall i | 0 <= i < |run| ensures run[i].h.dropped == 0 {
      var before := run[..i + 1];
      forall k | 0 < k < |before| ensures Next(c, before[k - 1], before[k]) { assert Next(c, run[k - 1], run[k]); }
      Drops.CrewStays(c, before);
      Drops.NoDrops(c, before);
    }
  }

  // The run so far: at rest, everything kept, nothing dropped.
  ghost predicate Paused(c: Config, run: seq<State>, view: View) {
    && LongRun(c, run) && Undropped(run) && Last(run).h.lost == {}
    && Last(run).ws == ReadyCrew(1) && ViewOf(Last(run)) == view
  }

  lemma RestAfterFirst(c: Config, run: seq<State>, view: View)
    requires SceneOf(c, run) == Scene(Fresh(c, 1), ReadyCrew(1), view)
    ensures Paused(c, run, view)
  {
    SpawnShape(1);
    Races.RunsAreLong(c, run);
    NothingDropped(c, run);
    LostStays(c, run);
  }

  lemma {:induction false} LostStays(c: Config, run: seq<State>)
    requires IsRun(c, run)
    ensures Last(run).h.lost == run[0].h.lost
  {
    if |run| > 1 {
      var w, o := LastStep(c, run);
      LostStays(c, run[..|run| - 1]);
      StepChanged(c, run[|run| - 2], w, o);
    }
  }

  lemma NextProcess(c: Config, run: seq<State>, next: seq<State>, ws: seq<Phase>, view: View)
    requires next != [] && LongRun(c, run) && Undropped(run) && Crash(c, Last(run), next[0]) && next[0].h.lost == {}
    requires next[0].h.dropped == 0 && next[0].ws == Spawn(1) && SceneOf(c, next) == Scene(next[0], ws, view)
    ensures LongRun(c, run + next) && Undropped(run + next) && Last(run + next).h.lost == {}
    ensures Last(run + next).ws == ws && ViewOf(Last(run + next)) == view
  {
    SpawnShape(1);
    Joined(c, run, next);
    NothingDropped(c, next);
    LostStays(c, next);
  }

  function StrandAnswers(c: Config, host: string, a: Url, b: Url): set<((Url, nat), Option<Response>)> {
    {SeedAnswer(c, host, a), PageAnswer(c, host, a, b)}
  }

  // After two processes everything queued is completed.
  lemma TwoProcesses(c: Config, host: string, a: Url, b: Url) returns (run: seq<State>)
    requires c.Valid() && c.sameDomain && host != c.seed.host && c.maxDepth >= 2 && c.maxUrls != Some(0) && TwoLinks(c, host, a, b)
    ensures Paused(c, run, View(multiset{}, PrintsOf(c, a), false, Spent(c), c.seed.host, BornOf(c, a),
                                StrandAnswers(c, host, a, b)))
  {
    var first, page := FirstProcess(c, host, a, b);
    RestAfterFirst(c, first, ViewOf(Last(first)));
    var start := RestartAtRest(c, first);
    var second := SecondProcess(c, host, a, b, start, page, SceneOf(c, [start]).view);
    assert SceneOf(c, second).start == second[0];
    NextProcess(c, first, second, ReadyCrew(1), SceneOf(c, second).view);
    run := first + second;
    assert {SeedAnswer(c, host, a)} + {PageAnswer(c, host, a, b)} == StrandAnswers(c, host, a, b);
  }

  // A third finds nothing to do.
  lemma ThreeProcesses(c: Config, host: string, a: Url, b: Url) returns (run: seq<State>)
    requires c.Valid() && c.sameDomain && host != c.seed.host && c.maxDepth >= 2 && c.maxUrls != Some(0) && TwoLinks(c, host, a, b)
    ensures LongRun(c, run) && Undropped(run) && Last(run).h.lost == {}
    ensures Last(run).ws == ReadyCrew(1)[1 := Exited(false)]
    ensures ViewOf(Last(run))
         == View(multiset{}, PrintsOf(c, a), false, 0, c.seed.host, BornOf(c, a), StrandAnswers(c, host, a, b))
  {
    var before := TwoProcesses(c, host, a, b);
    var start := RestartAtRest(c, before);
    var last := LastProcess(c, start, SceneOf(c, [start]).view);
    assert SceneOf(c, last).start == last[0];
    NextProcess(c, before, last, ReadyCrew(1)[1 := Exited(false)], SceneOf(c, last).view);
    run := before + last;
  }

  function OneOfThree(a: Url, b: Url, e: Url): (Url, nat) -> bool {
    (url: Url, d: nat) => url == a || url == b || url == e
  }

  lemma StrandLinks(c: Config, host: string, a: Url, b: Url, from: Url, to: Url)
    requires Links(c, StrandSite(c, host, a, b), from, to)
    ensures to == c.Norm(a) || to == c.Norm(b)
  {
  }

  lemma StrandDistinct(c: Config, host: string, a: Url, b: Url, n: nat)
    requires TwoLinks(c, host, a, b)
    ensures Distinct(c, StrandSite(c, host, a, b), n)
  {
    var site := StrandSite(c, host, a, b);
    forall x, y | ReachWithin(c, site, x, n) && ReachWithin(c, site, y, n) && c.fp(x) == c.fp(y) ensures x == y {
      StrandHas(c, host, a, b, x, n);
      StrandHas(c, host, a, b, y, n);
    }
  }

  lemma StrandHas(c: Config, host: string, a: Url, b: Url, url: Url, n: nat)
    requires ReachWithin(c, StrandSite(c, host, a, b), url, n)
    ensures url == Root(c) || url == c.Norm(a) || url == c.Norm(b)
  {
    var site := StrandSite(c, host, a, b);
    var d: nat :| d <= n && Reach(c, site, url, d);
    forall from, to | Links(c, site, from, to) ensures to == c.Norm(a) || to == c.Norm(b) {
      StrandLinks(c, host, a, b, from, to);
    }
    ReachBy(c, site, OneOfThree(Root(c), c.Norm(a), c.Norm(b)), url, d);
  }

  lemma StrandReaches(c: Config, host: string, a: Url, b: Url)
    requires TwoLinks(c, host, a, b)
    ensures Reach(c, StrandSite(c, host, a, b), c.Norm(b), 2)
  {
    var site := StrandSite(c, host, a, b);
    RootReached(c, site);
    assert site(Root(c)).value.links[0] == a && site(c.Norm(a)).value.links[0] == b;
    assert Links(c, site, Root(c), c.Norm(a)) && Links(c, site, c.Norm(a), c.Norm(b));
    ReachNext(c, site, Root(c), c.Norm(a), 0);
    ReachNext(c, site, c.Norm(a), c.Norm(b), 1);
  }

  // The run meets every condition, and never accepts b.
  lemma PageStranded(c: Config, host: string, a: Url, b: Url) returns (run: seq<State>)
    requires c.Valid() && c.sameDomain && host != c.seed.host && c.maxDepth >= 2 && c.maxUrls != Some(0) && TwoLinks(c, host, a, b)
    ensures SeedAnswers(c, StrandSite(c, host, a, b), host) && WholeRun(c, StrandSite(c, host, a, b), run)
    ensures Reach(c, StrandSite(c, host, a, b), c.Norm(b), 2) && !Claimed(Last(run), c.Norm(b))
  {
    run := ThreeProcesses(c, host, a, b);
    SpawnShape(1);
    StrandDistinct(c, host, a, b, c.maxDepth + 1);
    StrandReaches(c, host, a, b);
    StrandHonest(c, host, a, b, Last(run));
  }

  lemma StrandHonest(c: Config, host: string, a: Url, b: Url, s: State)
    requires TwoLinks(c, host, a, b) && s.h.answers == StrandAnswers(c, host, a, b) && c.maxDepth >= 2
    ensures Honest(s, StrandSite(c, host, a, b)) && !CutShort(c, StrandSite(c, host, a, b), s)
  {
  }

  // Such runs exist: a crawl without limits that died anywhere outside the window can be
  // resumed and run to its end.
  lemma ResumeDrains(c: Config, site: Site, run: seq<State>, s': State) returns (more: seq<State>)
    requires c.Valid() && c.maxUrls.None? && FairRun(c, site, run) && Crash(c, Last(run), s') && s'.h.lost == {}
    ensures more != [] && more[0] == s' && Drained(c, site, run + more)
  {
    RestartUndisturbed(c, site, Last(run), s');
    more := Drains.DrainFrom(c, site, [s'], Termination.RankOf(s'));
    Joined(c, run, more);
    NothingDropped(c, more);
    LostStays(c, more);
  }

  lemma RestartUndisturbed(c: Config, site: Site, s: State, s': State)
    requires Honest(s, site) && Crash(c, s, s')
    ensures Session(c, [s']) && Drains.Undisturbed(site, s') && s'.h.dropped == 0
  {
    var n: nat, m: nat :| RestartsAs(c, s, n, m, s');
    SpawnShape(n);
  }

  // ----- the exact condition -----

  // In any number of processes that end drained and uncut and lose nothing to the budget
  // or in the window, all crawls whose seed answers from this host accept every reachable
  // URL, exactly if a restart cannot strand a page.
  lemma ResumeCompleteness(c: Config, host: string)
    requires c.Valid()
    ensures AlwaysResumes(c, host) <==> !Strands(c, host)
  {
    if Strands(c, host) {
      var a, b :| TwoLinks(c, host, a, b);
      var run := PageStranded(c, host, a, b);
      assert !Covers(c, StrandSite(c, host, a, b), Last(run));
    } else {
      forall site, run | SeedAnswers(c, site, host) && WholeRun(c, site, run) ensures Covers(c, site, Last(run)) {
        if c.maxUrls == Some(0) { NothingDrains(c, run); }
        else if Steady(c, site) { ResumeCovers(c, site, run); }
        else { FewPagesCover(c, site, host, run); }
      }
    }
  }
}
