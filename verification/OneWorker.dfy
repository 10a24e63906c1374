// The protocol with one worker is an exact breadth-first search; with more, depths
// need not be shortest distances.
module OneWorker {
  import opened Prelude
  import opened Urls
  import opened Protocol
  import opened Census
  import opened Wakeups
  import opened Coverage
  import Races
  import Recovery
  import SoloCrawl

  // A run of n workers on a fresh store, on a site whose URLs within `max_depth` have
  // fingerprints of their own.
  ghost predicate WorkersRun(c: Config, site: Site, n: nat, run: seq<State>) {
    IsRun(c, run) && run[0] == Fresh(c, n) && Honest(Last(run), site) && Distinct(c, site, c.maxDepth)
  }

  // Every URL was accepted at its shortest distance.
  ghost predicate BornShortest(c: Config, site: Site, s: State) {
    forall b :: b in s.h.born ==> Shortest(c, site, b.0, b.1)
  }

  ghost predicate DepthsShortest(n: nat) {
    forall c, site, run :: WorkersRun(c, site, n, run) ==> BornShortest(c, site, Last(run))
  }

  // ----- one worker at a time -----

  // Phases of a worker after it, or nobody, set `stopped`.
  predicate AfterHalt(p: Phase) {
    p.HaltNotifying? || p.Exited? || (p.Draining? && p.why.Dropped?) ||
    (p.Busy? && (p.task.RejectNotifying? || (p.task.Deleting? && p.task.why.Dropped?)
                 || (p.task.Decrementing? && p.task.why.Dropped?)))
  }

  // The queue never holds anything shallower than the item in hand, a child lies one
  // level deeper, and only a worker about to leave has stopped the crawl.
  predicate OneAhead(s: State) {
    && |s.ws| == 2
    && (s.f.stopped ==> AfterHalt(s.ws[1]))
    && (s.ws[1].Busy? ==>
          (forall item :: item in s.f.queue ==> item.depth >= s.ws[1].item.depth)
          && (s.ws[1].task.Pushing? ==> s.ws[1].task.child.depth == s.ws[1].item.depth + 1))
  }

  predicate QueueScored(s: State) { forall item :: item in s.f.queue ==> item.priority == Score(item.depth) }

  lemma QueueScoredAlways(c: Config, run: seq<State>)
    requires FreshRun(c, run)
    ensures QueueScored(Last(run))
  {
    var s := Last(run);
    Races.RunsAreLong(c, run);
    Recovery.DurableAlways(c, run);
    Recovery.CanonicalAlways(c, run);
    forall item | item in s.f.queue ensures item.priority == Score(item.depth) {
      assert Recovery.Total(c, s, Recovery.Live(item)) == Bit(Recovery.HasRow(c, s.d, item));
      assert Recovery.Canonical(c, s.d.rows[c.fp(item.url)].item);
    }
  }

  lemma MoveHalts(c: Config, s: State, o: Oracle)
    requires OneAhead(s) && Enabled(c, s, 1, o) && Move(c, s, 1, o).1.f.stopped
    ensures AfterHalt(Move(c, s, 1, o).0)
  {
    if s.ws[1].Busy? { TaskHalts(c, s, s.ws[1].item, s.ws[1].task, o); }
  }

  lemma TaskHalts(c: Config, s: State, item: Item, task: Task, o: Oracle)
    requires TaskEnabled(c, s, item, task, o) && (s.f.stopped ==> AfterHalt(Busy(item, task)))
    ensures var (p, t) := MoveTask(c, s, item, task, o); t.f.stopped ==> AfterHalt(p)
  {
    MoveTaskStops(c, s, item, task, o);
  }

  lemma MoveTaskStops(c: Config, s: State, item: Item, task: Task, o: Oracle)
    requires TaskEnabled(c, s, item, task, o)
    ensures MoveTask(c, s, item, task, o).1.f.stopped ==> s.f.stopped || task.Rejecting?
  {
    TaskAfter(c, s, item, task, o);
  }

  lemma ChildOneDeeper(c: Config, s: State, o: Oracle)
    requires OneAhead(s) && Enabled(c, s, 1, o)
    ensures var p := Move(c, s, 1, o).0; p.Busy? && p.task.Pushing? ==> p.task.child.depth == p.item.depth + 1
  {
    if s.ws[1].Busy? { TaskChild(c, s, s.ws[1].item, s.ws[1].task, o); }
  }

  lemma TaskChild(c: Config, s: State, item: Item, task: Task, o: Oracle)
    requires TaskEnabled(c, s, item, task, o) && (task.Pushing? ==> task.child.depth == item.depth + 1)
    ensures var p := MoveTask(c, s, item, task, o).0;
      p.Busy? && p.task.Pushing? ==> p.task.child.depth == p.item.depth + 1
  {
    if !task.Pushing? && !task.Expanding? { NoNewPush(c, s, item, task, o); }
  }

  lemma NoNewPush(c: Config, s: State, item: Item, task: Task, o: Oracle)
    requires TaskEnabled(c, s, item, task, o) && !task.Pushing? && !task.Expanding?
    ensures var p := MoveTask(c, s, item, task, o).0; p.Busy? ==> !p.task.Pushing?
  {
  }

  lemma MoveQueueAhead(c: Config, s: State, o: Oracle)
    requires OneAhead(s) && QueueScored(s) && Enabled(c, s, 1, o)
    ensures var (p, t) := Move(c, s, 1, o);
      p.Busy? ==> forall item :: item in t.f.queue ==> item.depth >= p.item.depth
  {
    MoveAfter(c, s, 1, o);
    var (p, t) := Move(c, s, 1, o);
    if p.Busy? { HandKept(c, s, o); }
  }

  // The item in hand stays, or comes off the top.
  lemma HandKept(c: Config, s: State, o: Oracle)
    requires OneAhead(s) && Enabled(c, s, 1, o) && Move(c, s, 1, o).0.Busy?
    ensures var p := Move(c, s, 1, o).0;
      if s.ws[1].Busy? then
        p.item == s.ws[1].item && (TurnOf(c, s, s.ws[1], o).Enqueues? ==> TurnOf(c, s, s.ws[1], o).child.depth == p.item.depth + 1)
        && !TurnOf(c, s, s.ws[1], o).Dequeues?
      else p.item == o.item && IsTop(s.f.queue, o.item) && TurnOf(c, s, s.ws[1], o) == Dequeues(o.item)
  {
  }

  lemma OneAheadStep(c: Config, s: State, w: nat, o: Oracle)
    requires Crew(s) && OneAhead(s) && QueueScored(s) && Enabled(c, s, w, o)
    ensures OneAhead(Step(c, s, w, o))
  {
    if w == 1 {
      if Move(c, s, 1, o).1.f.stopped { MoveHalts(c, s, o); }
      ChildOneDeeper(c, s, o);
      MoveQueueAhead(c, s, o);
    } else {
      MainAhead(c, s, w, o);
    }
  }

  // While main moves, the worker waits at its loop head.
  lemma MainAhead(c: Config, s: State, w: nat, o: Oracle)
    requires Crew(s) && OneAhead(s) && Enabled(c, s, w, o) && w != 1
    ensures OneAhead(Step(c, s, w, o))
  {
    MoveDisturbs(c, s, w, o);
    MoveAfter(c, s, w, o);
  }

  lemma {:induction false} OneAheadAlways(c: Config, run: seq<State>)
    requires IsRun(c, run) && run[0] == Fresh(c, 1)
    ensures OneAhead(Last(run))
  {
    if |run| == 1 {
      SpawnShape(1);
    } else {
      var w, o := LastStep(c, run);
      OneAheadAlways(c, run[..|run| - 1]);
      AlertAlways(c, run[..|run| - 1]);
      QueueScoredAlways(c, run[..|run| - 1]);
      OneAheadStep(c, run[|run| - 2], w, o);
    }
  }

  // ----- what was accepted before the item in hand is finished -----

  // The worker is about to look at a link.
  predicate Pushes(s: State) { |s.ws| == 2 && s.ws[0].Booted? && s.ws[1].Busy? && s.ws[1].task.Expanding? }

  lemma EarlierAnswered(c: Config, site: Site, s: State, key: (Url, nat))
    requires OneAhead(s) && Pushes(s) && BornAsked(s) && Honest(s, site)
    requires key in s.h.born && key.1 < s.ws[1].item.depth
    ensures (key, site(key.0)) in s.h.answers
  {
    assert !QueuedKey(s, key) && !WillAsk(s, key);
    var r :| (key, r) in s.h.answers;
    assert (key, r).1 == site(key.0);
  }

  lemma EarlierOpened(c: Config, site: Site, s: State, key: (Url, nat)) returns (e: Expansion)
    requires OneAhead(s) && Pushes(s) && BornAsked(s) && AnswersOpened(c, s) && Honest(s, site)
    requires key in s.h.born && key.1 < s.ws[1].item.depth <= c.maxDepth && site(key.0).Some?
    ensures e in s.h.expanded && Key(e.item) == key
  {
    EarlierAnswered(c, site, s, key);
    var a := (key, site(key.0));
    assert !WillOpen(s, a.0);
    e :| e in s.h.expanded && Key(e.item) == key;
  }

  lemma EarlierLinks(c: Config, site: Site, s: State, key: (Url, nat), to: Url)
    requires OneAhead(s) && Pushes(s) && Sound(c, site, s) && Complete(c, s) && Honest(s, site)
    requires key in s.h.born && key.1 < s.ws[1].item.depth <= c.maxDepth && Links(c, site, key.0, to)
    ensures c.fp(to) in s.f.visited
  {
    var e := EarlierOpened(c, site, s, key);
    assert Fine(c, site, s, s.ws[1]);
    OpenedLink(c, site, s, e, to);
  }

  lemma OpenedLink(c: Config, site: Site, s: State, e: Expansion, to: Url)
    requires ExpandedFine(c, site, s) && LinksPushed(c, s) && Pushes(s) && s.ws[1].task.e.item == s.ws[1].item
    requires e in s.h.expanded && e.item.depth < s.ws[1].item.depth && Links(c, site, e.item.url, to)
    ensures c.fp(to) in s.f.visited
  {
    assert Opened(c, site, e);
    var k: nat :| k < |e.links| && c.InScope(e.host, e.links[k]) && c.Norm(e.links[k]) == to;
    OthersPushed(c, s, e, k);
  }

  lemma OthersPushed(c: Config, s: State, e: Expansion, k: nat)
    requires Pushes(s) && LinksPushed(c, s) && e in s.h.expanded && k < |e.links|
    requires e.item.depth < s.ws[1].item.depth && s.ws[1].task.e.item == s.ws[1].item
    ensures LinkSeen(c, s, e, k)
  {
    assert !WillPush(s, e, k);
  }

  // The item in hand is within the limit.
  lemma HandWithin(c: Config, site: Site, run: seq<State>)
    requires WorkersRun(c, site, 1, run) && Pushes(Last(run))
    ensures Last(run).ws[1].item.depth <= c.maxDepth
  {
    CoversAlways(c, site, run);
    assert Fine(c, site, Last(run), Last(run).ws[1]);
  }

  lemma NextSeen(c: Config, site: Site, run: seq<State>, key: (Url, nat), to: Url)
    requires WorkersRun(c, site, 1, run) && Pushes(Last(run))
    requires key in Last(run).h.born && key.1 < Last(run).ws[1].item.depth && Links(c, site, key.0, to)
    ensures c.fp(to) in Last(run).f.visited
  {
    HandWithin(c, site, run);
    CoversAlways(c, site, run);
    OneAheadAlways(c, run);
    EarlierLinks(c, site, Last(run), key, to);
  }

  lemma SeenAtDistance(c: Config, site: Site, run: seq<State>, url: Url, d: nat)
    requires WorkersRun(c, site, 1, run) && BornShortest(c, site, Last(run))
    requires c.fp(url) in Last(run).f.visited && Reach(c, site, url, d) && d <= c.maxDepth
    ensures exists k: nat :: k <= d && (url, k) in Last(run).h.born
  {
    CoversAlways(c, site, run);
    ClaimedShortest(c, site, Last(run), url, d);
  }

  // Everything up to the level of the item in hand was accepted, at its distance.
  lemma {:induction false} WithinLevel(c: Config, site: Site, run: seq<State>, url: Url, d: nat)
    requires WorkersRun(c, site, 1, run) && Pushes(Last(run)) && BornShortest(c, site, Last(run))
    requires Reach(c, site, url, d) && d <= Last(run).ws[1].item.depth
    ensures exists k: nat :: k <= d && (url, k) in Last(run).h.born
    decreases d
  {
    HandWithin(c, site, run);
    if d == 0 {
      SeedPushed(c, run);
    } else {
      var from :| Reach(c, site, from, d - 1) && Links(c, site, from, url);
      WithinLevel(c, site, run, from, d - 1);
      var k: nat :| k <= d - 1 && (from, k) in Last(run).h.born;
      NextSeen(c, site, run, (from, k), url);
    }
    SeenAtDistance(c, site, run, url, d);
  }

  lemma ClaimedShortest(c: Config, site: Site, s: State, url: Url, d: nat)
    requires BornFine(c, site, s) && BornShortest(c, site, s) && Distinct(c, site, c.maxDepth)
    requires c.fp(url) in s.f.visited && Reach(c, site, url, d) && d <= c.maxDepth
    ensures exists k: nat :: k <= d && (url, k) in s.h.born
  {
    assert ReachWithin(c, site, url, c.maxDepth);
    VisitedIsClaimed(c, site, s, url, c.maxDepth);
    var k: nat :| k <= c.maxDepth && (url, k) in s.h.born;
    assert Shortest(c, site, (url, k).0, (url, k).1);
  }

  // ----- shortest with one worker -----

  // What is not accepted yet has no path as short as that of the item in hand.
  lemma NoPathWithin(c: Config, site: Site, run: seq<State>, url: Url, d: nat)
    requires WorkersRun(c, site, 1, run) && Pushes(Last(run)) && BornShortest(c, site, Last(run))
    requires c.fp(url) !in Last(run).f.visited && d <= Last(run).ws[1].item.depth
    ensures !Reach(c, site, url, d)
  {
    if Reach(c, site, url, d) {
      WithinLevel(c, site, run, url, d);
      ClaimIsVisited(c, site, run, url);
    }
  }

  lemma ClaimIsVisited(c: Config, site: Site, run: seq<State>, url: Url)
    requires WorkersRun(c, site, 1, run) && Claimed(Last(run), url)
    ensures c.fp(url) in Last(run).f.visited
  {
    CoversAlways(c, site, run);
    ClaimedVisited(c, site, Last(run), url);
  }

  lemma ClaimDepth(c: Config, site: Site, run: seq<State>, o: Oracle, child: Item)
    requires WorkersRun(c, site, 1, run) && Pushes(Last(run)) && TurnOf(c, Last(run), Last(run).ws[1], o) == NewChild(child)
    ensures child.depth == Last(run).ws[1].item.depth + 1 && c.fp(child.url) !in Last(run).f.visited
  {
    ClaimsNew(c, Last(run), Last(run).ws[1], o);
  }

  lemma ChildShortest(c: Config, site: Site, run: seq<State>, o: Oracle, child: Item)
    requires WorkersRun(c, site, 1, run) && Pushes(Last(run)) && BornShortest(c, site, Last(run))
    requires TurnOf(c, Last(run), Last(run).ws[1], o) == NewChild(child)
    requires Reach(c, site, child.url, child.depth)
    ensures Shortest(c, site, child.url, child.depth)
  {
    ClaimDepth(c, site, run, o, child);
    forall less: nat | Reach(c, site, child.url, less) ensures child.depth <= less {
      if less < child.depth { NoPathWithin(c, site, run, child.url, less); }
    }
  }

  lemma NewShortest(c: Config, site: Site, run: seq<State>, w: nat, o: Oracle, child: Item)
    requires WorkersRun(c, site, 1, run) && BornShortest(c, site, Last(run)) && Enabled(c, Last(run), w, o)
    requires TurnOf(c, Last(run), Last(run).ws[w], o) == NewChild(child)
    requires Reach(c, site, child.url, child.depth)
    ensures Shortest(c, site, child.url, child.depth)
  {
    OneAheadAlways(c, run);
    AlertAlways(c, run);
    if w == 1 { ChildShortest(c, site, run, o, child); } else { SeedIsRoot(c, Last(run), w, o, child); }
  }

  lemma SeedIsRoot(c: Config, s: State, w: nat, o: Oracle, child: Item)
    requires Crew(s) && |s.ws| == 2 && w != 1 && Enabled(c, s, w, o) && TurnOf(c, s, s.ws[w], o) == NewChild(child)
    ensures child.depth == 0
  {
  }

  lemma NewReached(c: Config, site: Site, run: seq<State>, w: nat, o: Oracle, child: Item)
    requires WorkersRun(c, site, 1, run) && Enabled(c, Last(run), w, o)
    requires TurnOf(c, Last(run), Last(run).ws[w], o) == NewChild(child)
    ensures Reach(c, site, child.url, child.depth)
  {
    CoversAlways(c, site, run);
    TurnIsFine(c, site, Last(run), w, o);
    if Key(child) != (c.Norm(c.seed), 0) { LinkReaches(c, site, Last(run), child); }
  }

  lemma ShortestStep(c: Config, site: Site, run: seq<State>, w: nat, o: Oracle)
    requires WorkersRun(c, site, 1, run) && BornShortest(c, site, Last(run)) && Enabled(c, Last(run), w, o)
    ensures BornShortest(c, site, Step(c, Last(run), w, o))
  {
    var turn := TurnOf(c, Last(run), Last(run).ws[w], o);
    MoveAfter(c, Last(run), w, o);
    if turn.NewChild? {
      NewReached(c, site, run, w, o, turn.child);
      NewShortest(c, site, run, w, o, turn.child);
    }
    ShortestKept(c, site, Last(run), turn, Move(c, Last(run), w, o).1);
  }

  lemma ShortestKept(c: Config, site: Site, s: State, turn: Turn, t: State)
    requires BornShortest(c, site, s) && After(c, s, turn, t)
    requires turn.NewChild? ==> Shortest(c, site, turn.child.url, turn.child.depth)
    ensures BornShortest(c, site, t)
  {
  }

  lemma {:induction false} ShortestAlways(c: Config, site: Site, run: seq<State>)
    requires WorkersRun(c, site, 1, run)
    ensures BornShortest(c, site, Last(run))
  {
    if |run| > 1 {
      var w, o := LastStep(c, run);
      MoveAfter(c, run[|run| - 2], w, o);
      ShortestAlways(c, site, run[..|run| - 1]);
      ShortestStep(c, site, run[..|run| - 1], w, o);
    }
  }

  // ----- and with no more than one -----

  // Depths are shortest distances in all crawls of n workers exactly if n is 1.
  lemma ShortestNeedsOneWorker(n: nat)
    requires n >= 1
    ensures DepthsShortest(n) <==> n == 1
  {
    if n == 1 {
      forall c, site, run | WorkersRun(c, site, n, run) ensures BornShortest(c, site, Last(run)) {
        ShortestAlways(c, site, run);
      }
    } else {
      var c, site := Races.TriangleCrawl(), Races.Triangle();
      var run := Races.DepthNotShortest(n);
      Races.TriangleDistinct(5);
      assert WorkersRun(c, site, n, run) && !Shortest(c, site, (Races.Page("u"), 2).0, (Races.Page("u"), 2).1);
    }
  }

  // ----- the search of one worker -----

  lemma {:induction false} ShortestExists(c: Config, site: Site, url: Url, d: nat) returns (k: nat)
    requires Reach(c, site, url, d)
    ensures k <= d && Shortest(c, site, url, k)
    decreases d
  {
    k := d;
    if less: nat :| less < d && Reach(c, site, url, less) { k := ShortestExists(c, site, url, less); }
  }

  // Accepted is exactly what lies within `max_depth`, at its shortest distance.
  ghost predicate BornIsBfs(c: Config, site: Site, s: State) {
    forall url, d: nat :: (url, d) in s.h.born <==> Shortest(c, site, url, d) && d <= c.maxDepth
  }

  lemma {:induction false} DrainedReach(c: Config, site: Site, run: seq<State>, url: Url, d: nat)
    requires DrainedRun(c, site, run) && WorkersRun(c, site, 1, run) && Reach(c, site, url, d) && d <= c.maxDepth
    ensures exists k: nat :: k <= d && (url, k) in Last(run).h.born
    decreases d
  {
    ShortestAlways(c, site, run);
    if d == 0 {
      SeedVisited(c, site, run);
    } else {
      var from :| Reach(c, site, from, d - 1) && Links(c, site, from, url);
      DrainedReach(c, site, run, from, d - 1);
      var k: nat :| k <= d - 1 && (from, k) in Last(run).h.born;
      DrainedAnswers(c, site, run, (from, k));
      ExpandedLinks(c, site, run, (from, k), url);
    }
    SeenAtDistance(c, site, run, url, d);
  }

  lemma BornWithin(c: Config, site: Site, run: seq<State>, url: Url, d: nat)
    requires WorkersRun(c, site, 1, run) && (url, d) in Last(run).h.born
    ensures d <= c.maxDepth
  {
    CoversAlways(c, site, run);
    assert (url, d).1 <= c.maxDepth;
  }

  lemma DistinctIsBfs(c: Config, site: Site, run: seq<State>)
    requires DrainedRun(c, site, run) && WorkersRun(c, site, 1, run)
    ensures BornIsBfs(c, site, Last(run))
  {
    ShortestAlways(c, site, run);
    forall url, d: nat ensures (url, d) in Last(run).h.born <==> Shortest(c, site, url, d) && d <= c.maxDepth {
      if (url, d) in Last(run).h.born {
        BornWithin(c, site, run, url, d);
        assert Shortest(c, site, (url, d).0, (url, d).1);
      }
      if Shortest(c, site, url, d) && d <= c.maxDepth {
        DrainedReach(c, site, run, url, d);
        var k: nat :| k <= d && (url, k) in Last(run).h.born;
        assert Shortest(c, site, (url, k).0, (url, k).1);
      }
    }
  }

  lemma BfsIsDistinct(c: Config, site: Site, s: State)
    requires BornOnce(c, s) && BornIsBfs(c, site, s)
    ensures Distinct(c, site, c.maxDepth)
  {
    forall a, b | ReachWithin(c, site, a, c.maxDepth) && ReachWithin(c, site, b, c.maxDepth) && c.fp(a) == c.fp(b)
      ensures a == b
    {
      var d: nat :| d <= c.maxDepth && Reach(c, site, a, d);
      var e: nat :| e <= c.maxDepth && Reach(c, site, b, e);
      var k := ShortestExists(c, site, a, d);
      var l := ShortestExists(c, site, b, e);
      assert (a, k) in s.h.born && (b, l) in s.h.born;
    }
  }

  // A drained crawl of one worker is the exact breadth-first search, if and only if no two
  // URLs within `max_depth` share a fingerprint.
  lemma OneWorkerBfs(c: Config, site: Site, run: seq<State>)
    requires DrainedRun(c, site, run) && run[0] == Fresh(c, 1)
    ensures BornIsBfs(c, site, Last(run)) <==> Distinct(c, site, c.maxDepth)
  {
    if Distinct(c, site, c.maxDepth) { DistinctIsBfs(c, site, run); }
    BornOnceAlways(c, run);
    if BornIsBfs(c, site, Last(run)) { BfsIsDistinct(c, site, Last(run)); }
  }

  // The loop of SoloCrawl and the protocol with one worker agree on what is accepted and
  // how deep, page for page.
  lemma SoloAgrees(c: Config, site: Site, run: seq<State>, order: seq<Item>)
    requires DrainedRun(c, site, run) && run[0] == Fresh(c, 1) && Distinct(c, site, c.maxDepth)
    requires SoloCrawl.ExactBfs(c, site, order)
    ensures forall url, d: nat :: (url, d) in Last(run).h.born <==> Listed(order, url, d)
  {
    OneWorkerBfs(c, site, run);
    forall url, d: nat ensures (url, d) in Last(run).h.born <==> Listed(order, url, d) {
      if (url, d) in Last(run).h.born { ShortestIsListed(c, site, order, url, d); }
    }
  }

  predicate Listed(order: seq<Item>, url: Url, d: nat) {
    exists i :: 0 <= i < |order| && order[i].url == url && order[i].depth == d
  }

  lemma ShortestIsListed(c: Config, site: Site, order: seq<Item>, url: Url, d: nat)
    requires SoloCrawl.ExactBfs(c, site, order) && Shortest(c, site, url, d) && d <= c.maxDepth
    ensures Listed(order, url, d)
  {
    assert ReachWithin(c, site, url, c.maxDepth);
    assert SoloCrawl.Processed(order, url);
    var i :| 0 <= i < |order| && order[i].url == url;
    assert Shortest(c, site, order[i].url, order[i].depth);
  }
}
