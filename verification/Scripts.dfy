// Building runs step by step: each lemma extends a session by the steps named.
module Scripts {
  import opened Prelude
  import opened Urls
  import opened Protocol
  import opened Census
  import opened Wakeups

  // What the scripts follow besides the threads' phases.
  datatype View = View(
    queue: multiset<Item>, visited: set<Fp>, stopped: bool, fetched: int, scope: string, born: set<(Url, nat)>,
    answers: set<((Url, nat), Option<Response>)>)

  function ViewOf(s: State): View {
    View(s.f.queue, s.f.visited, s.f.stopped, s.t.fetched, s.scope, s.h.born, s.h.answers)
  }

  // Where a session began and stands.
  datatype Scene = Nowhere | Scene(start: State, ws: seq<Phase>, view: View)

  // How a session began.
  ghost function Origin(c: Config, run: seq<State>): Option<State> { if Session(c, run) then Some(run[0]) else None }

  // What the tables hold and what is gone.
  function Ledger(s: State): (Tables, set<Fp>, set<Fp>) { (s.d, s.h.done, s.h.lost) }

  ghost function SceneOf(c: Config, run: seq<State>): Scene {
    if Session(c, run) then Scene(run[0], Last(run).ws, ViewOf(Last(run))) else Nowhere
  }

  function Put(ws: seq<Phase>, w: nat, p: Phase): seq<Phase> { if w < |ws| then ws[w := p] else ws }

  // Thread w is now in phase p, the others are where they were, and the view is v.
  ghost predicate Leads(c: Config, run: seq<State>, more: seq<State>, w: nat, p: Phase, v: View)
    requires Session(c, run)
  {
    SceneOf(c, more) == Scene(run[0], Put(Last(run).ws, w, p), v)
  }

  predicate At(run: seq<State>, w: nat, p: Phase)
    requires |run| > 0
  {
    w < |Last(run).ws| && Last(run).ws[w] == p
  }

  function Asking(flag: bool): Oracle { Oracle(flag, Item(Url(Http, "", None, "", None, None), 0, None, 0, 0), 0, None) }

  lemma Go(c: Config, run: seq<State>, w: nat, o: Oracle) returns (more: seq<State>)
    requires Session(c, run) && Enabled(c, Last(run), w, o)
    ensures Origin(c, more) == Some(run[0]) && Last(more) == Step(c, Last(run), w, o)
  {
    more := run + [Step(c, Last(run), w, o)];
    forall i | 0 < i < |more| ensures Next(c, more[i - 1], more[i]) {
      if i < |run| { assert Next(c, run[i - 1], run[i]); }
    }
  }

  // ----- into `pop` and out with an item -----

  predicate HasBudget(c: Config, s: State) { c.maxUrls.Some? ==> s.t.fetched < c.maxUrls.value }

  lemma LookIn(c: Config, run: seq<State>, w: nat) returns (more: seq<State>)
    requires Session(c, run) && At(run, w, Top) && At(run, 0, Booted) && HasBudget(c, Last(run))
    ensures Leads(c, run, more, w, Pop(Entering), ViewOf(Last(run)))
  {
    more := Go(c, run, w, Asking(false));
  }

  lemma Register(c: Config, run: seq<State>, w: nat) returns (more: seq<State>)
    requires Session(c, run) && At(run, w, Pop(Entering))
    ensures Leads(c, run, more, w, Pop(Registered(false)), ViewOf(Last(run)))
  {
    more := Go(c, run, w, Asking(false));
  }

  lemma SeeRunning(c: Config, run: seq<State>, w: nat) returns (more: seq<State>)
    requires Session(c, run) && At(run, w, Pop(Registered(false))) && !Last(run).f.stopped
    ensures Leads(c, run, more, w, Pop(Polling(false)), ViewOf(Last(run)))
  {
    more := Go(c, run, w, Asking(false));
  }

  // About to look at the queue, the budget already checked.
  lemma Approach(c: Config, run: seq<State>, w: nat) returns (more: seq<State>)
    requires Session(c, run) && At(run, w, Top) && At(run, 0, Booted) && HasBudget(c, Last(run)) && !Last(run).f.stopped
    ensures Leads(c, run, more, w, Pop(Polling(false)), ViewOf(Last(run)))
  {
    more := LookIn(c, run, w);
    more := Register(c, more, w);
    more := SeeRunning(c, more, w);
  }

  lemma TakeTop(c: Config, run: seq<State>, w: nat, item: Item) returns (more: seq<State>)
    requires Session(c, run) && At(run, w, Pop(Polling(false))) && IsTop(Last(run).f.queue, item)
    ensures Leads(c, run, more, w, Busy(item, Leasing), ViewOf(Last(run)).(queue := Last(run).f.queue - multiset{item}))
  {
    more := Go(c, run, w, Asking(false).(item := item));
  }

  // From the loop head to an item.
  lemma PopItem(c: Config, run: seq<State>, w: nat, item: Item) returns (more: seq<State>)
    requires Session(c, run) && At(run, w, Top) && At(run, 0, Booted) && HasBudget(c, Last(run)) && !Last(run).f.stopped
    requires IsTop(Last(run).f.queue, item)
    ensures Leads(c, run, more, w, Busy(item, Leasing), ViewOf(Last(run)).(queue := Last(run).f.queue - multiset{item}))
  {
    more := Approach(c, run, w);
    more := TakeTop(c, more, w, item);
  }

  // Nothing is queued or owed: the worker leaves.
  lemma LeaveEmpty(c: Config, run: seq<State>, w: nat) returns (more: seq<State>)
    requires Session(c, run) && At(run, w, Pop(Polling(false))) && Last(run).f.queue == multiset{}
    requires forall i :: 0 <= i < |Last(run).ws| ==> Weight(Owes, Last(run).ws[i]) == 0
    ensures Leads(c, run, more, w, Exited(false), ViewOf(Last(run)))
  {
    AlertAlways(c, run);
    CountZero(Owes, Last(run).ws);
    more := Go(c, run, w, Asking(false));
    more := Go(c, more, w, Asking(false));
  }

  // ----- admission -----

  lemma LeaseRow(c: Config, run: seq<State>, w: nat, item: Item) returns (more: seq<State>)
    requires Session(c, run) && At(run, w, Busy(item, Leasing)) && StoreFree(Last(run).ws)
    ensures Leads(c, run, more, w, Busy(item, Acquiring), ViewOf(Last(run)))
  {
    more := Go(c, run, w, Asking(false));
  }

  lemma Acquire(c: Config, run: seq<State>, w: nat, item: Item) returns (more: seq<State>)
    requires Session(c, run) && At(run, w, Busy(item, Acquiring))
    ensures Leads(c, run, more, w, Busy(item, Vetting), ViewOf(Last(run)))
  {
    AlertAlways(c, run);
    GlobalPermitFree(Last(run), w);
    more := Go(c, run, w, Asking(false));
  }

  lemma PassBreaker(c: Config, run: seq<State>, w: nat, item: Item) returns (more: seq<State>)
    requires Session(c, run) && At(run, w, Busy(item, Vetting))
    ensures Leads(c, run, more, w, Busy(item, Robots), ViewOf(Last(run)))
  {
    more := Go(c, run, w, Asking(true));
  }

  // The breaker refuses; the item is only counted.
  lemma SkipItem(c: Config, run: seq<State>, w: nat, item: Item) returns (more: seq<State>)
    requires Session(c, run) && At(run, w, Busy(item, Vetting))
    ensures Leads(c, run, more, w, Busy(item, Deleting(Skipped)),
                  ViewOf(Last(run)).(answers := Last(run).h.answers + {(Key(item), None)}))
    ensures Last(more).t == Last(run).t.(skipped := Last(run).t.skipped + 1)
  {
    more := Go(c, run, w, Asking(false));
    more := Go(c, more, w, Asking(false));
  }

  lemma PassRobots(c: Config, run: seq<State>, w: nat, item: Item) returns (more: seq<State>)
    requires Session(c, run) && At(run, w, Busy(item, Robots))
    ensures Leads(c, run, more, w, Busy(item, if c.maxUrls.Some? then Loading else Reserved), ViewOf(Last(run)))
  {
    more := Go(c, run, w, Asking(true));
  }

  // From the lease to the verdicts.
  lemma Admit(c: Config, run: seq<State>, w: nat, item: Item) returns (more: seq<State>)
    requires Session(c, run) && At(run, w, Busy(item, Leasing)) && StoreFree(Last(run).ws)
    ensures Leads(c, run, more, w, Busy(item, if c.maxUrls.Some? then Loading else Reserved), ViewOf(Last(run)))
  {
    more := LeaseRow(c, run, w, item);
    more := Acquire(c, more, w, item);
    more := PassBreaker(c, more, w, item);
    more := PassRobots(c, more, w, item);
  }

  lemma LoadCount(c: Config, run: seq<State>, w: nat, item: Item) returns (more: seq<State>)
    requires Session(c, run) && At(run, w, Busy(item, Loading))
    ensures Leads(c, run, more, w, Busy(item, Reserving(Last(run).t.fetched)), ViewOf(Last(run)))
  {
    more := Go(c, run, w, Asking(false));
  }

  lemma Exchange(c: Config, run: seq<State>, w: nat, item: Item) returns (more: seq<State>)
    requires Session(c, run) && At(run, w, Busy(item, Reserving(Last(run).t.fetched))) && HasBudget(c, Last(run))
    ensures Leads(c, run, more, w, Busy(item, Reserved), ViewOf(Last(run)).(fetched := Last(run).t.fetched + 1))
  {
    more := Go(c, run, w, Asking(false));
  }

  // A slot of the budget, if there is one.
  lemma Reserve(c: Config, run: seq<State>, w: nat, item: Item) returns (more: seq<State>)
    requires Session(c, run) && HasBudget(c, Last(run))
    requires At(run, w, Busy(item, if c.maxUrls.Some? then Loading else Reserved))
    ensures Leads(c, run, more, w, Busy(item, Reserved),
                  ViewOf(Last(run)).(fetched := Last(run).t.fetched + Bit(c.maxUrls.Some?)))
  {
    if c.maxUrls.Some? {
      more := LoadCount(c, run, w, item);
      more := Exchange(c, more, w, item);
    } else {
      more := run;
    }
  }

  predicate HostFree(ws: seq<Phase>, host: string) { forall i :: 0 <= i < |ws| ==> !HoldsHost(ws[i], host) }

  lemma TakeHost(c: Config, run: seq<State>, w: nat, item: Item) returns (more: seq<State>)
    requires Session(c, run) && c.Valid() && At(run, w, Busy(item, Reserved)) && HostFree(Last(run).ws, item.url.host)
    ensures Leads(c, run, more, w, Busy(item, Fetching), ViewOf(Last(run)))
  {
    assert HostHolders(Last(run).ws, item.url.host) == {};
    more := Go(c, run, w, Asking(false));
  }

  // From a popped item to its fetch.
  lemma GoFetch(c: Config, run: seq<State>, w: nat, item: Item) returns (more: seq<State>)
    requires Session(c, run) && c.Valid() && At(run, w, Busy(item, Leasing))
    requires StoreFree(Last(run).ws) && HostFree(Last(run).ws, item.url.host) && HasBudget(c, Last(run))
    ensures Leads(c, run, more, w, Busy(item, Fetching),
                  ViewOf(Last(run)).(fetched := Last(run).t.fetched + Bit(c.maxUrls.Some?)))
  {
    more := Admit(c, run, w, item);
    more := Reserve(c, more, w, item);
    more := TakeHost(c, more, w, item);
  }

  // ----- a page -----

  lemma Receive(c: Config, run: seq<State>, w: nat, item: Item, page: Response) returns (more: seq<State>)
    requires Session(c, run) && At(run, w, Busy(item, Fetching))
    ensures Leads(c, run, more, w, Busy(item, Answered(page)),
                  ViewOf(Last(run)).(answers := Last(run).h.answers + {(Key(item), Some(page))}))
  {
    more := Go(c, run, w, Asking(false).(answer := Some(page)));
  }

  function ScopeAfter(s: State, item: Item, page: Response): string {
    if item.depth == 0 then page.finalHost else s.scope
  }

  lemma SettleScope(c: Config, run: seq<State>, w: nat, item: Item, page: Response) returns (more: seq<State>)
    requires Session(c, run) && At(run, w, Busy(item, Answered(page))) && item.depth < c.maxDepth
    ensures Leads(c, run, more, w, Busy(item, Scoping(page.links)),
                  ViewOf(Last(run)).(scope := ScopeAfter(Last(run), item, page)))
  {
    more := Go(c, run, w, Asking(false));
  }

  lemma OpenLinks(c: Config, run: seq<State>, w: nat, item: Item, links: seq<Url>) returns (more: seq<State>, e: Expansion)
    requires Session(c, run) && At(run, w, Busy(item, Scoping(links)))
    ensures Leads(c, run, more, w, Busy(item, Expanding(e)), ViewOf(Last(run)))
    ensures e == Expansion(item, Last(run).scope, links, 0) && e in Last(more).h.expanded
  {
    e := Expansion(item, Last(run).scope, links, 0);
    more := Go(c, run, w, Asking(false));
  }

  // From the host permit to the links.
  lemma FetchPage(c: Config, run: seq<State>, w: nat, item: Item, page: Response)
    returns (more: seq<State>, e: Expansion)
    requires Session(c, run) && At(run, w, Busy(item, Fetching)) && item.depth < c.maxDepth
    ensures Leads(c, run, more, w, Busy(item, Expanding(e)),
                  ViewOf(Last(run)).(scope := ScopeAfter(Last(run), item, page),
                                     answers := Last(run).h.answers + {(Key(item), Some(page))}))
    ensures e == Expansion(item, ScopeAfter(Last(run), item, page), page.links, 0) && e in Last(more).h.expanded
  {
    more := Receive(c, run, w, item, page);
    more := SettleScope(c, more, w, item, page);
    more, e := OpenLinks(c, more, w, item, page.links);
  }

  // A worker that has just taken an item leaves store and hosts free.
  lemma TakenReady(n: nat, item: Item)
    requires n >= 1
    ensures var ws := ReadyCrew(n)[1 := Busy(item, Leasing)]; StoreFree(ws) && HostFree(ws, item.url.host)
  {
  }

  // From a popped item to the links of its page.
  lemma OpenPage(c: Config, run: seq<State>, w: nat, item: Item, page: Response)
    returns (more: seq<State>, e: Expansion)
    requires Session(c, run) && c.Valid() && At(run, w, Busy(item, Leasing)) && item.depth < c.maxDepth
    requires StoreFree(Last(run).ws) && HostFree(Last(run).ws, item.url.host) && HasBudget(c, Last(run))
    ensures Leads(c, run, more, w, Busy(item, Expanding(e)),
                  ViewOf(Last(run)).(fetched := Last(run).t.fetched + Bit(c.maxUrls.Some?),
                                     scope := ScopeAfter(Last(run), item, page),
                                     answers := Last(run).h.answers + {(Key(item), Some(page))}))
    ensures e == Expansion(item, ScopeAfter(Last(run), item, page), page.links, 0) && e in Last(more).h.expanded
  {
    more := GoFetch(c, run, w, item);
    more, e := FetchPage(c, more, w, item, page);
  }

  // ----- one link -----

  lemma ClaimLink(c: Config, run: seq<State>, w: nat, item: Item, e: Expansion)
    returns (more: seq<State>, child: Item)
    requires Session(c, run) && At(run, w, Busy(item, Expanding(e)))
    requires e.next < |e.links| && c.InScope(e.host, e.links[e.next]) && c.fp(c.Norm(e.links[e.next])) !in Last(run).f.visited
    ensures child.url == c.Norm(e.links[e.next]) && child.depth == item.depth + 1
    ensures Leads(c, run, more, w, Busy(item, Pushing(e.(next := e.next + 1), child, Numbering)),
                  ViewOf(Last(run)).(visited := Last(run).f.visited + {c.fp(child.url)},
                                     born := Last(run).h.born + {Key(child)}))
  {
    more := Go(c, run, w, Asking(false));
    child := Last(more).ws[w].task.child;
  }

  lemma NumberChild(c: Config, run: seq<State>, w: nat, item: Item, e: Expansion, claimed: Item)
    returns (more: seq<State>, child: Item)
    requires Session(c, run) && At(run, w, Busy(item, Pushing(e, claimed, Numbering)))
    ensures child.url == claimed.url && child.depth == claimed.depth
    ensures Leads(c, run, more, w, Busy(item, Pushing(e, child, MarkingSeen)), ViewOf(Last(run)))
  {
    more := Go(c, run, w, Asking(false));
    child := Last(more).ws[w].task.child;
  }

  lemma MarkChild(c: Config, run: seq<State>, w: nat, item: Item, e: Expansion, child: Item) returns (more: seq<State>)
    requires Session(c, run) && At(run, w, Busy(item, Pushing(e, child, MarkingSeen))) && StoreFree(Last(run).ws)
    ensures Leads(c, run, more, w, Busy(item, Pushing(e, child, Enqueuing)), ViewOf(Last(run)))
  {
    more := Go(c, run, w, Asking(false));
  }

  lemma StoreChild(c: Config, run: seq<State>, w: nat, item: Item, e: Expansion, child: Item) returns (more: seq<State>)
    requires Session(c, run) && At(run, w, Busy(item, Pushing(e, child, Enqueuing)))
    ensures Leads(c, run, more, w, Busy(item, Pushing(e, child, Counting)), ViewOf(Last(run)))
  {
    more := Go(c, run, w, Asking(false));
  }

  lemma CountChild(c: Config, run: seq<State>, w: nat, item: Item, e: Expansion, child: Item) returns (more: seq<State>)
    requires Session(c, run) && At(run, w, Busy(item, Pushing(e, child, Counting)))
    ensures Leads(c, run, more, w, Busy(item, Pushing(e, child, Heaping)), ViewOf(Last(run)))
  {
    more := Go(c, run, w, Asking(false));
  }

  lemma HeapChild(c: Config, run: seq<State>, w: nat, item: Item, e: Expansion, child: Item) returns (more: seq<State>)
    requires Session(c, run) && At(run, w, Busy(item, Pushing(e, child, Heaping)))
    ensures Leads(c, run, more, w, Busy(item, Pushing(e, child, Notifying)),
                  ViewOf(Last(run)).(queue := Last(run).f.queue + multiset{child}))
  {
    more := Go(c, run, w, Asking(false));
  }

  // From the claim to the heap push.
  lemma QueueChild(c: Config, run: seq<State>, w: nat, item: Item, e: Expansion, claimed: Item)
    returns (more: seq<State>, child: Item)
    requires Session(c, run) && At(run, w, Busy(item, Pushing(e, claimed, Numbering))) && StoreFree(Last(run).ws)
    ensures child.url == claimed.url && child.depth == claimed.depth
    ensures Leads(c, run, more, w, Busy(item, Pushing(e, child, Notifying)),
                  ViewOf(Last(run)).(queue := Last(run).f.queue + multiset{child}))
  {
    more, child := NumberChild(c, run, w, item, e, claimed);
    more := MarkChild(c, more, w, item, e, child);
    more := StoreChild(c, more, w, item, e, child);
    more := CountChild(c, more, w, item, e, child);
    more := HeapChild(c, more, w, item, e, child);
  }

  // With nobody parked, the notification becomes a permit.
  lemma NotifyNobody(c: Config, run: seq<State>, w: nat, item: Item, e: Expansion, child: Item) returns (more: seq<State>)
    requires Session(c, run) && At(run, w, Busy(item, Pushing(e, child, Notifying))) && !SomeoneWaiting(Last(run).ws)
    ensures Leads(c, run, more, w, Busy(item, Tallying(e)), ViewOf(Last(run)))
  {
    more := Go(c, run, w, Asking(false));
  }

  lemma Tally(c: Config, run: seq<State>, w: nat, item: Item, e: Expansion) returns (more: seq<State>)
    requires Session(c, run) && At(run, w, Busy(item, Tallying(e)))
    ensures Leads(c, run, more, w, Busy(item, Expanding(e)), ViewOf(Last(run)))
  {
    more := Go(c, run, w, Asking(false));
  }

  // A busy thread that is not writing keeps nobody from the store.
  lemma StaysQuiet(ws: seq<Phase>, w: nat, p: Phase)
    requires StoreFree(ws) && !SomeoneWaiting(ws) && p.Busy? && !InStage(p, Enqueuing)
    ensures StoreFree(Put(ws, w, p)) && !SomeoneWaiting(Put(ws, w, p))
  {
  }

  // The next link up to the heap push.
  lemma OfferLink(c: Config, run: seq<State>, w: nat, item: Item, e: Expansion)
    returns (more: seq<State>, child: Item)
    requires Session(c, run) && At(run, w, Busy(item, Expanding(e))) && StoreFree(Last(run).ws) && !SomeoneWaiting(Last(run).ws)
    requires e.next < |e.links| && c.InScope(e.host, e.links[e.next]) && c.fp(c.Norm(e.links[e.next])) !in Last(run).f.visited
    ensures child.url == c.Norm(e.links[e.next]) && child.depth == item.depth + 1
    ensures Leads(c, run, more, w, Busy(item, Pushing(e.(next := e.next + 1), child, Notifying)),
                  ViewOf(Last(run)).(visited := Last(run).f.visited + {c.fp(child.url)},
                                     born := Last(run).h.born + {Key(child)},
                                     queue := Last(run).f.queue + multiset{child}))
  {
    more, child := ClaimLink(c, run, w, item, e);
    StaysQuiet(Last(run).ws, w, Busy(item, Pushing(e.(next := e.next + 1), child, Numbering)));
    more, child := QueueChild(c, more, w, item, e.(next := e.next + 1), child);
  }

  lemma SettlePush(c: Config, run: seq<State>, w: nat, item: Item, e: Expansion, child: Item) returns (more: seq<State>)
    requires Session(c, run) && At(run, w, Busy(item, Pushing(e, child, Notifying))) && !SomeoneWaiting(Last(run).ws)
    ensures Leads(c, run, more, w, Busy(item, Expanding(e)), ViewOf(Last(run)))
  {
    more := NotifyNobody(c, run, w, item, e, child);
    more := Tally(c, more, w, item, e);
  }

  // A whole push of the next link.
  lemma PushLink(c: Config, run: seq<State>, w: nat, item: Item, e: Expansion)
    returns (more: seq<State>, child: Item)
    requires Session(c, run) && At(run, w, Busy(item, Expanding(e))) && StoreFree(Last(run).ws) && !SomeoneWaiting(Last(run).ws)
    requires e.next < |e.links| && c.InScope(e.host, e.links[e.next]) && c.fp(c.Norm(e.links[e.next])) !in Last(run).f.visited
    ensures child.url == c.Norm(e.links[e.next]) && child.depth == item.depth + 1
    ensures Leads(c, run, more, w, Busy(item, Expanding(e.(next := e.next + 1))),
                  ViewOf(Last(run)).(visited := Last(run).f.visited + {c.fp(child.url)},
                                     born := Last(run).h.born + {Key(child)},
                                     queue := Last(run).f.queue + multiset{child}))
  {
    var e' := e.(next := e.next + 1);
    more, child := OfferLink(c, run, w, item, e);
    StaysQuiet(Last(run).ws, w, Busy(item, Pushing(e', child, Notifying)));
    more := SettlePush(c, more, w, item, e', child);
  }

  // The only link of a page, the queue empty.
  lemma PushOnlyLink(c: Config, start: State, ws: seq<Phase>, view: View, run: seq<State>, w: nat, item: Item,
                     e: Expansion, link: Url)
    returns (more: seq<State>, child: Item)
    requires w < |ws| && SceneOf(c, run) == Scene(start, ws[w := Busy(item, Expanding(e))], view)
    requires StoreFree(ws[w := Busy(item, Expanding(e))]) && !SomeoneWaiting(ws[w := Busy(item, Expanding(e))])
    requires e.links == [link] && e.next == 0 && view.queue == multiset{}
    requires c.InScope(e.host, link) && c.fp(c.Norm(link)) !in view.visited
    ensures child.url == c.Norm(link) && child.depth == item.depth + 1
    ensures SceneOf(c, more)
         == Scene(start, ws[w := Busy(item, Expanding(e.(next := 1)))],
                  view.(queue := multiset{child}, visited := view.visited + {c.fp(c.Norm(link))},
                        born := view.born + {(c.Norm(link), item.depth + 1)}))
  {
    more, child := PushLink(c, run, w, item, e);
    assert multiset{} + multiset{child} == multiset{child};
  }

  // A link out of scope.
  lemma PassLink(c: Config, run: seq<State>, w: nat, item: Item, e: Expansion) returns (more: seq<State>)
    requires Session(c, run) && At(run, w, Busy(item, Expanding(e)))
    requires e.next < |e.links| && !c.InScope(e.host, e.links[e.next])
    ensures Leads(c, run, more, w, Busy(item, Expanding(e.(next := e.next + 1))), ViewOf(Last(run)))
  {
    more := Go(c, run, w, Asking(false));
  }

  // ----- the end of a page -----

  lemma LinksDone(c: Config, run: seq<State>, w: nat, item: Item, e: Expansion) returns (more: seq<State>)
    requires Session(c, run) && At(run, w, Busy(item, Expanding(e))) && e.next >= |e.links|
    ensures Leads(c, run, more, w, Busy(item, Recording(e.links)), ViewOf(Last(run)))
  {
    more := Go(c, run, w, Asking(false));
  }

  lemma RecordPage(c: Config, run: seq<State>, w: nat, item: Item, links: seq<Url>) returns (more: seq<State>)
    requires Session(c, run) && At(run, w, Busy(item, Recording(links)))
    ensures Leads(c, run, more, w, Busy(item, Deleting(Fetched)), ViewOf(Last(run)))
    ensures Last(more).t.pages == Last(run).t.pages + [PageRecord(item.url, item.depth, links)]
  {
    more := Go(c, run, w, Asking(false));
  }

  lemma DeleteRow(c: Config, run: seq<State>, w: nat, item: Item, why: Reason) returns (more: seq<State>)
    requires Session(c, run) && At(run, w, Busy(item, Deleting(why))) && StoreFree(Last(run).ws)
    ensures Leads(c, run, more, w, Busy(item, Decrementing(why)), ViewOf(Last(run)))
    ensures c.fp(item.url) in Last(more).h.done && Last(more).h.dropped == Last(run).h.dropped
  {
    more := Go(c, run, w, Asking(false));
  }

  predicate NobodyPops(ws: seq<Phase>) { forall i :: 0 <= i < |ws| ==> !ws[i].Pop? }

  // With nobody in `pop`, it makes no difference whether the last item was completed.
  lemma GoHome(c: Config, run: seq<State>, w: nat, item: Item) returns (more: seq<State>)
    requires Session(c, run) && At(run, w, Busy(item, Decrementing(Fetched))) && NobodyPops(Last(run).ws)
    ensures Leads(c, run, more, w, Top, ViewOf(Last(run)))
  {
    more := Go(c, run, w, Asking(false));
    if At(more, w, Draining(item, Fetched)) { more := TellNobody(c, more, w, item); }
  }

  lemma TellNobody(c: Config, run: seq<State>, w: nat, item: Item) returns (more: seq<State>)
    requires Session(c, run) && At(run, w, Draining(item, Fetched)) && NobodyPops(Last(run).ws)
    ensures Leads(c, run, more, w, Top, ViewOf(Last(run)))
  {
    more := Go(c, run, w, Asking(false));
    assert WakeAll(Last(run).ws) == Last(run).ws;
  }

  // Other work is pending, so nobody is to be told.
  lemma GoOn(c: Config, run: seq<State>, w: nat, item: Item) returns (more: seq<State>)
    requires Session(c, run) && At(run, w, Busy(item, Decrementing(Fetched))) && Last(run).f.queue != multiset{}
    ensures Leads(c, run, more, w, Top, ViewOf(Last(run)))
  {
    AlertAlways(c, run);
    CountAtLeast(Owes, Last(run).ws, w);
    more := Go(c, run, w, Asking(false));
  }

  lemma FinishPage(c: Config, run: seq<State>, w: nat, item: Item, e: Expansion) returns (more: seq<State>)
    requires Session(c, run) && At(run, w, Busy(item, Expanding(e))) && e.next >= |e.links|
    requires StoreFree(Last(run).ws) && Last(run).f.queue != multiset{}
    ensures Leads(c, run, more, w, Top, ViewOf(Last(run)))
  {
    more := LinksDone(c, run, w, item, e);
    more := RecordPage(c, more, w, item, e.links);
    more := DeleteRow(c, more, w, item, Fetched);
    more := GoOn(c, more, w, item);
  }

  // ----- over budget -----

  lemma Overdraw(c: Config, run: seq<State>, w: nat, item: Item) returns (more: seq<State>)
    requires Session(c, run) && At(run, w, Busy(item, Reserving(Last(run).t.fetched)))
    requires c.maxUrls.Some? && Last(run).t.fetched >= c.maxUrls.value
    ensures Leads(c, run, more, w, Busy(item, Rejecting), ViewOf(Last(run)))
    ensures Last(more).h.dropped == Last(run).h.dropped + 1
  {
    more := Go(c, run, w, Asking(false));
  }

  lemma Reject(c: Config, run: seq<State>, w: nat, item: Item) returns (more: seq<State>)
    requires Session(c, run) && At(run, w, Busy(item, Rejecting))
    ensures Leads(c, run, more, w, Busy(item, RejectNotifying), ViewOf(Last(run)).(stopped := true))
    ensures Last(more).h.dropped == Last(run).h.dropped
  {
    more := Go(c, run, w, Asking(false));
  }

  // Wakes whom it may concern.
  lemma RejectLoud(c: Config, run: seq<State>, w: nat, item: Item) returns (more: seq<State>)
    requires Session(c, run) && At(run, w, Busy(item, RejectNotifying)) && StoreFree(Last(run).ws)
    ensures Origin(c, more) == Some(run[0]) && At(more, w, Busy(item, Deleting(Dropped)))
    ensures ViewOf(Last(more)) == ViewOf(Last(run)) && StoreFree(Last(more).ws)
    ensures Last(more).h.dropped == Last(run).h.dropped
  {
    more := Go(c, run, w, Asking(false));
    forall i | 0 <= i < |Last(more).ws| ensures !InStage(Last(more).ws[i], Enqueuing) {
      assert !InStage(Last(run).ws[i], Enqueuing);
    }
  }

  // ----- main -----

  // All workers ready, main done.
  function ReadyCrew(n: nat): (r: seq<Phase>)
    ensures |r| == n + 1 && r[0] == Booted && forall i :: 1 <= i <= n ==> r[i] == Top
  {
    SpawnShape(n);
    Spawn(n)[0 := Booted]
  }

  // Main offers the seed.
  lemma Offer(c: Config, run: seq<State>, n: nat) returns (more: seq<State>, child: Item)
    requires Session(c, run) && Last(run).ws == Spawn(n) && c.fp(c.Norm(c.seed)) !in Last(run).f.visited
    ensures child.url == c.Norm(c.seed) && child.depth == 0
    ensures Leads(c, run, more, 0, Seeding(child, Numbering),
                  ViewOf(Last(run)).(visited := Last(run).f.visited + {c.fp(child.url)},
                                     born := Last(run).h.born + {Key(child)}))
    ensures Ledger(Last(more)) == Ledger(Last(run))
  {
    SpawnShape(n);
    more := Go(c, run, 0, Asking(false));
    child := Last(more).ws[0].child;
  }

  lemma NumberSeed(c: Config, run: seq<State>, claimed: Item) returns (more: seq<State>, child: Item)
    requires Session(c, run) && At(run, 0, Seeding(claimed, Numbering))
    ensures child.url == claimed.url && child.depth == claimed.depth
    ensures Leads(c, run, more, 0, Seeding(child, MarkingSeen), ViewOf(Last(run)))
    ensures Ledger(Last(more)) == Ledger(Last(run))
  {
    more := Go(c, run, 0, Asking(false));
    child := Last(more).ws[0].child;
  }

  lemma MarkSeed(c: Config, run: seq<State>, child: Item) returns (more: seq<State>)
    requires Session(c, run) && At(run, 0, Seeding(child, MarkingSeen)) && StoreFree(Last(run).ws)
    ensures Leads(c, run, more, 0, Seeding(child, Enqueuing), ViewOf(Last(run)))
    ensures Ledger(Last(more))
         == (Last(run).d.(seen := Last(run).d.seen + {c.fp(child.url)}), Last(run).h.done, Last(run).h.lost)
  {
    more := Go(c, run, 0, Asking(false));
  }

  lemma StoreSeed(c: Config, run: seq<State>, child: Item) returns (more: seq<State>)
    requires Session(c, run) && At(run, 0, Seeding(child, Enqueuing))
    ensures Leads(c, run, more, 0, Seeding(child, Counting), ViewOf(Last(run)))
  {
    more := Go(c, run, 0, Asking(false));
  }

  lemma CountSeed(c: Config, run: seq<State>, child: Item) returns (more: seq<State>)
    requires Session(c, run) && At(run, 0, Seeding(child, Counting))
    ensures Leads(c, run, more, 0, Seeding(child, Heaping), ViewOf(Last(run)))
  {
    more := Go(c, run, 0, Asking(false));
  }

  lemma HeapSeed(c: Config, run: seq<State>, child: Item) returns (more: seq<State>)
    requires Session(c, run) && At(run, 0, Seeding(child, Heaping))
    ensures Leads(c, run, more, 0, Seeding(child, Notifying), ViewOf(Last(run)).(queue := Last(run).f.queue + multiset{child}))
  {
    more := Go(c, run, 0, Asking(false));
  }

  lemma FinishSeed(c: Config, run: seq<State>, child: Item) returns (more: seq<State>)
    requires Session(c, run) && At(run, 0, Seeding(child, Notifying)) && !SomeoneWaiting(Last(run).ws)
    ensures Leads(c, run, more, 0, Booted, ViewOf(Last(run)))
  {
    more := Go(c, run, 0, Asking(false));
  }

  lemma SettleSeed(c: Config, run: seq<State>, child: Item) returns (more: seq<State>)
    requires Session(c, run) && At(run, 0, Seeding(child, Enqueuing)) && !SomeoneWaiting(Last(run).ws)
    ensures Leads(c, run, more, 0, Booted, ViewOf(Last(run)).(queue := Last(run).f.queue + multiset{child}))
  {
    more := StoreSeed(c, run, child);
    more := CountSeed(c, more, child);
    more := HeapSeed(c, more, child);
    more := FinishSeed(c, more, child);
  }

  // The seed is new: it is queued.
  lemma PushSeed(c: Config, run: seq<State>, n: nat) returns (more: seq<State>, child: Item)
    requires Session(c, run) && Last(run).ws == Spawn(n) && c.fp(c.Norm(c.seed)) !in Last(run).f.visited
    ensures child.url == c.Norm(c.seed) && child.depth == 0
    ensures Leads(c, run, more, 0, Booted,
                  ViewOf(Last(run)).(visited := Last(run).f.visited + {c.fp(child.url)},
                                     born := Last(run).h.born + {Key(child)},
                                     queue := Last(run).f.queue + multiset{child}))
    ensures Last(more).ws == ReadyCrew(n)
  {
    SpawnShape(n);
    more, child := Offer(c, run, n);
    more, child := NumberSeed(c, more, child);
    more := MarkSeed(c, more, child);
    more := SettleSeed(c, more, child);
  }

  // It is known already: main is done at once.
  lemma SkipSeed(c: Config, run: seq<State>, n: nat) returns (more: seq<State>)
    requires Session(c, run) && Last(run).ws == Spawn(n) && c.fp(c.Norm(c.seed)) in Last(run).f.visited
    ensures Leads(c, run, more, 0, Booted, ViewOf(Last(run))) && Last(more).ws == ReadyCrew(n)
  {
    SpawnShape(n);
    more := Go(c, run, 0, Asking(false));
  }
}
