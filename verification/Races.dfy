// Concrete runs, for what holds only under a condition: the failing side of each.
module Races {
  import opened Prelude
  import opened Urls
  import opened Protocol
  import opened Census
  import opened Wakeups
  import opened Recovery
  import opened Coverage
  import opened Scripts
  import Accounting

  function NoRules(): Rules { Rules(false, false, false, false, false, Preserve, []) }

  lemma FreshSession(c: Config, n: nat) returns (run: seq<State>)
    requires n >= 1
    ensures run == [Fresh(c, n)] && Session(c, run)
  {
    run := [Fresh(c, n)];
    assert run[0] == Start(c, n, Tables({}, map[]), 0, History(0, {}, {}, {}, {}, {}, 0));
  }

  // Worker 1 has taken the seed.
  lemma SeedTaken(c: Config, n: nat) returns (run: seq<State>, seed: Item)
    requires n >= 1 && c.maxUrls != Some(0)
    ensures seed.url == c.Norm(c.seed) && seed.depth == 0
    ensures SceneOf(c, run)
         == Scene(Fresh(c, n), ReadyCrew(n)[1 := Busy(seed, Leasing)],
                  View(multiset{}, {c.fp(c.Norm(c.seed))}, false, 0, c.seed.host, {(c.Norm(c.seed), 0)}, {}))
  {
    run := FreshSession(c, n);
    run, seed := PushSeed(c, run, n);
    run := PopItem(c, run, 1, seed);
    assert multiset{} + multiset{seed} - multiset{seed} == multiset{};
  }

  // ----- depths: s links to a and u, a links to u -----

  function Page(host: string): Url { Url(Http, host, None, "/", None, None) }

  function TriangleCrawl(): Config {
    Config(5, false, None, false, 1, NoRules(), Page("s"),
           (url: Url) => if url.host == "s" then 0 else if url.host == "a" then 1 else 2)
  }

  function Triangle(): Site {
    (url: Url) =>
      if url == Page("s") then Some(Response("s", [Page("a"), Page("u")]))
      else if url == Page("a") then Some(Response("a", [Page("u")]))
      else None
  }

  lemma HostsDiffer()
    ensures Page("s") != Page("a") && Page("a") != Page("u") && Page("s") != Page("u")
    ensures TriangleCrawl().fp(Page("s")) == 0 && TriangleCrawl().fp(Page("a")) == 1 && TriangleCrawl().fp(Page("u")) == 2
    ensures forall host: string :: TriangleCrawl().Norm(Page(host)) == Page(host)
  {
    CollapseFixes("/");
    assert "s" != "a" && "a" != "u" && "s" != "u" by { assert "s"[0] != "a"[0] && "a"[0] != "u"[0] && "s"[0] != "u"[0]; }
  }

  // The seed has been answered, nothing else.
  function SeedAnswered(queue: multiset<Item>, visited: set<Fp>, born: set<(Url, nat)>): View {
    View(queue, visited, false, 0, "s", born, {((Page("s"), 0), Triangle()(Page("s")))})
  }

  lemma SeedOpened(n: nat) returns (run: seq<State>, seed: Item, e: Expansion)
    requires n >= 2
    ensures SceneOf(TriangleCrawl(), run)
         == Scene(Fresh(TriangleCrawl(), n), ReadyCrew(n)[1 := Busy(seed, Expanding(e))], SeedAnswered(multiset{}, {0}, {(Page("s"), 0)}))
    ensures seed.url == Page("s") && seed.depth == 0 && e.links == [Page("a"), Page("u")] && e.next == 0
  {
    var c := TriangleCrawl();
    HostsDiffer();
    run, seed := SeedTaken(c, n);
    run, e := OpenPage(c, run, 1, seed, Triangle()(Page("s")).value);
  }

  // Worker 1 has queued `a` and not yet looked at the second link.
  lemma FirstLinkQueued(n: nat) returns (run: seq<State>, seed: Item, e: Expansion, a: Item)
    requires n >= 2
    ensures SceneOf(TriangleCrawl(), run)
         == Scene(Fresh(TriangleCrawl(), n), ReadyCrew(n)[1 := Busy(seed, Pushing(e, a, Notifying))],
                  SeedAnswered(multiset{a}, {0, 1}, {(Page("s"), 0), (Page("a"), 1)}))
    ensures seed.url == Page("s") && a.url == Page("a") && a.depth == 1
  {
    var c := TriangleCrawl();
    HostsDiffer();
    run, seed, e := SeedOpened(n);
    run, a := ClaimLink(c, run, 1, seed, e);
    e := e.(next := 1);
    run, a := QueueChild(c, run, 1, seed, e, a);
    assert multiset{} + multiset{a} == multiset{a};
  }

  // Worker 2 takes `a`...
  lemma FirstLinkTaken(n: nat) returns (run: seq<State>, seed: Item, e: Expansion, a: Item)
    requires n >= 2
    ensures SceneOf(TriangleCrawl(), run)
         == Scene(Fresh(TriangleCrawl(), n),
                  ReadyCrew(n)[1 := Busy(seed, Pushing(e, a, Notifying))][2 := Busy(a, Leasing)],
                  SeedAnswered(multiset{}, {0, 1}, {(Page("s"), 0), (Page("a"), 1)}))
    ensures seed.url == Page("s") && a.url == Page("a") && a.depth == 1
  {
    run, seed, e, a := FirstLinkQueued(n);
    run := PopItem(TriangleCrawl(), run, 2, a);
    assert multiset{a} - multiset{a} == multiset{};
  }

  lemma TwoReady(n: nat, seed: Item, e: Expansion, a: Item)
    requires n >= 2 && seed.url == Page("s") && a.url == Page("a")
    ensures var ws := ReadyCrew(n)[1 := Busy(seed, Pushing(e, a, Notifying))][2 := Busy(a, Leasing)];
      StoreFree(ws) && HostFree(ws, a.url.host)
  {
    HostsDiffer();
    assert seed.url.host != a.url.host;
  }

  function TriangleAnswers(): set<((Url, nat), Option<Response>)> {
    {((Page("s"), 0), Triangle()(Page("s"))), ((Page("a"), 1), Triangle()(Page("a")))}
  }

  // ...and reads its links.
  lemma SecondPageOpened(n: nat) returns (run: seq<State>, a: Item, e: Expansion)
    requires n >= 2
    ensures Origin(TriangleCrawl(), run) == Some(Fresh(TriangleCrawl(), n))
    ensures At(run, 2, Busy(a, Expanding(e))) && a.depth == 1 && e.links == [Page("u")] && e.next == 0
    ensures Last(run).f.visited == {0, 1} && Last(run).h.answers == TriangleAnswers()
  {
    var seed;
    HostsDiffer();
    run, seed, e, a := FirstLinkTaken(n);
    TwoReady(n, seed, e, a);
    run, e := OpenPage(TriangleCrawl(), run, 2, a, Triangle()(Page("a")).value);
  }

  // It claims `u` two links deep, though the seed links to it.
  lemma DepthNotShortest(n: nat) returns (run: seq<State>)
    requires n >= 2
    ensures FreshRun(TriangleCrawl(), run) && run[0] == Fresh(TriangleCrawl(), n) && Honest(Last(run), Triangle())
    ensures (Page("u"), 2) in Last(run).h.born && Reach(TriangleCrawl(), Triangle(), Page("u"), 1)
  {
    var a, e, child;
    HostsDiffer();
    run, a, e := SecondPageOpened(n);
    run, child := ClaimLink(TriangleCrawl(), run, 2, a, e);
    SeedLinksU();
  }

  lemma SeedLinksU()
    ensures Reach(TriangleCrawl(), Triangle(), Page("u"), 1)
  {
    HostsDiffer();
    var links := Triangle()(Page("s")).value.links;
    assert links[1] == Page("u");
    assert Reach(TriangleCrawl(), Triangle(), Page("s"), 0);
    assert Links(TriangleCrawl(), Triangle(), Page("s"), Page("u"));
  }

  lemma TriangleRoot(url: Url)
    requires Reach(TriangleCrawl(), Triangle(), url, 0)
    ensures url == Page("s")
  {
    HostsDiffer();
  }

  // What is d links from the seed.
  predicate InTriangle(url: Url, d: nat) {
    if d == 0 then url == Page("s")
    else if d == 1 then url == Page("a") || url == Page("u")
    else d == 2 && url == Page("u")
  }

  lemma TriangleReach(url: Url, d: nat)
    requires Reach(TriangleCrawl(), Triangle(), url, d)
    ensures InTriangle(url, d)
  {
    var c, site := TriangleCrawl(), Triangle();
    forall root | Reach(c, site, root, 0) ensures InTriangle(root, 0) { TriangleRoot(root); }
    forall from, to, k: nat | InTriangle(from, k) && Links(c, site, from, to) ensures InTriangle(to, k + 1) {
      TriangleLinks(from, to);
    }
    ReachBy(c, site, InTriangle, url, d);
  }

  lemma TriangleLinks(from: Url, to: Url)
    requires Links(TriangleCrawl(), Triangle(), from, to)
    ensures from == Page("s") || from == Page("a")
    ensures to == Page("u") || (from == Page("s") && to == Page("a"))
    ensures from != Page("u") && (from == Page("a") ==> to == Page("u"))
  {
    HostsDiffer();
  }

  lemma TriangleDistinct(n: nat)
    ensures Distinct(TriangleCrawl(), Triangle(), n)
  {
    var c, site := TriangleCrawl(), Triangle();
    HostsDiffer();
    forall a, b | ReachWithin(c, site, a, n) && ReachWithin(c, site, b, n) && c.fp(a) == c.fp(b) ensures a == b {
      TriangleHas(a, n);
      TriangleHas(b, n);
    }
  }

  lemma TriangleShallow(n: nat)
    requires n >= 3
    ensures NoPathOf(TriangleCrawl(), Triangle(), n)
  {
    forall url ensures !Reach(TriangleCrawl(), Triangle(), url, n) {
      if Reach(TriangleCrawl(), Triangle(), url, n) { TriangleReach(url, n); }
    }
  }

  lemma TriangleHas(url: Url, n: nat)
    requires ReachWithin(TriangleCrawl(), Triangle(), url, n)
    ensures url == Page("s") || url == Page("a") || url == Page("u")
  {
    var d: nat :| d <= n && Reach(TriangleCrawl(), Triangle(), url, d);
    TriangleReach(url, d);
  }

  // ----- a crash that empties the crawl -----

  lemma RunsAreLong(c: Config, run: seq<State>)
    requires FreshRun(c, run)
    ensures LongRun(c, run)
  {
  }

  // Three steps in: the seed is marked seen, its row not yet written.
  lemma SeedMarked(c: Config) returns (run: seq<State>)
    ensures Origin(c, run) == Some(Fresh(c, 1)) && Last(run).h.answers == {}
    ensures Ledger(Last(run)) == (Tables({c.fp(c.Norm(c.seed))}, map[]), {}, {})
  {
    run := FreshSession(c, 1);
    SpawnShape(1);
    var child;
    run, child := Offer(c, run, 1);
    run, child := NumberSeed(c, run, child);
    run := MarkSeed(c, run, child);
  }

  // In any crawl with a new store the process may die three steps after its start, with
  // the seed in `seen` but not in `items`: every later process finds nothing to do and
  // refuses the seed.
  lemma SeedLost(c: Config) returns (run: seq<State>, s': State)
    ensures LongRun(c, run) && Crash(c, Last(run), s') && IsStart(c, s')
    ensures c.fp(c.Norm(c.seed)) in s'.f.visited && c.fp(c.Norm(c.seed)) in s'.h.lost
    ensures s'.f.queue == multiset{} && s'.d.rows == map[] && s'.ws == Spawn(1) && !s'.f.stopped
    ensures s'.h.answers == {} && s'.h.dropped == 0
  {
    run := SeedMarked(c);
    RunsAreLong(c, run);
    s' := Restart(c, Last(run), 1, 0);
    assert RestartsAs(c, Last(run), 1, 0, s');
    assert s'.d.rows == map[];
  }

  // ----- a page refused for a while -----

  // The breaker is open when the seed is taken.
  lemma SeedSkipped(c: Config) returns (run: seq<State>, seed: Item)
    requires c.maxUrls != Some(0)
    ensures Origin(c, run) == Some(Fresh(c, 1)) && c.fp(c.Norm(c.seed)) in Last(run).h.done
    ensures Last(run).h.answers == {((c.Norm(c.seed), 0), None)}
    ensures At(run, 1, Busy(seed, Decrementing(Skipped))) && seed.url == c.Norm(c.seed)
  {
    run, seed := SeedTaken(c, 1);
    run := LeaseRow(c, run, 1, seed);
    run := Acquire(c, run, 1, seed);
    run := SkipItem(c, run, 1, seed);
    run := DeleteRow(c, run, 1, seed, Skipped);
  }

  // It is completed without being fetched, and no later process queues or accepts it.
  lemma SkipIsForGood(c: Config) returns (run: seq<State>, seed: Item)
    requires c.maxUrls != Some(0)
    ensures FreshRun(c, run) && Last(run).h.answers == {((c.Norm(c.seed), 0), None)}
    ensures At(run, 1, Busy(seed, Decrementing(Skipped))) && seed.url == c.Norm(c.seed)
    ensures forall s' :: Crash(c, Last(run), s') ==>
      c.fp(c.Norm(c.seed)) in s'.f.visited && forall item :: item in s'.f.queue ==> item.url != c.Norm(c.seed)
  {
    run, seed := SeedSkipped(c);
    forall s' | Crash(c, Last(run), s')
      ensures c.fp(c.Norm(c.seed)) in s'.f.visited && forall item :: item in s'.f.queue ==> item.url != c.Norm(c.seed)
    {
      RunsAreLong(c, run);
      DoneStaysDone(c, run, s', c.Norm(c.seed));
    }
  }

  // ----- a drop: page i links to page i + 1, and as many pages as the budget allows -----

  function Node(i: nat): Url { Url(Http, "h", None, "/" + seq(i, _ => 'p'), None, None) }

  function PathPrint(url: Url): Fp {
    if 1 <= |url.path| <= 0x1_0000_0000_0000_0000 then (|url.path| - 1) as Fp else 0
  }

  function Chain(m: nat): Config { Config(m, false, Some(m), false, 1, NoRules(), Node(0), PathPrint) }

  lemma NodeIsNormal(m: nat, i: nat)
    ensures Chain(m).Norm(Node(i)) == Node(i)
    ensures i < 0x1_0000_0000_0000_0000 ==> PathPrint(Node(i)) as int == i
  {
    CollapseFixes(Node(i).path);
  }

  lemma NodesDiffer(i: nat, k: nat)
    requires i != k
    ensures Node(i) != Node(k)
  {
    assert |Node(i).path| == i + 1 && |Node(k).path| == k + 1;
  }

  // Worker 1 is back at the loop head after i pages; worker 2 checked the budget before
  // the first of them and is about to look at the queue.
  ghost predicate OnChain(n: nat, m: nat, i: nat, run: seq<State>, item: Item) {
    && n >= 2 && item.url == Node(i) && item.depth == i && |run| > 0
    && (var f, h := Last(run).f, Last(run).h;
        && SceneOf(Chain(m), run)
           == Scene(Fresh(Chain(m), n), ReadyCrew(n)[2 := Pop(Polling(false))],
                    View(multiset{item}, f.visited, false, i, "h", h.born, h.answers))
        && (forall fp :: fp in f.visited ==> fp as int <= i)
        && (forall a :: a in h.answers ==> exists k: nat :: k < i && a.0.0 == Node(k)))
  }

  lemma ChainStarts(n: nat, m: nat) returns (run: seq<State>, item: Item)
    requires n >= 2 && m >= 1
    ensures OnChain(n, m, 0, run, item)
  {
    NodeIsNormal(m, 0);
    run := FreshSession(Chain(m), n);
    run, item := PushSeed(Chain(m), run, n);
    run := Approach(Chain(m), run, 2);
  }

  function NodeAnswer(i: nat): ((Url, nat), Option<Response>) { ((Node(i), i), Some(Response("h", [Node(i + 1)]))) }

  lemma ChainPage(n: nat, m: nat, i: nat, run: seq<State>, item: Item)
    returns (more: seq<State>, e: Expansion)
    requires OnChain(n, m, i, run, item) && i < m
    ensures e.links == [Node(i + 1)] && e.next == 0
    ensures SceneOf(Chain(m), more)
         == Scene(run[0], ReadyCrew(n)[2 := Pop(Polling(false))][1 := Busy(item, Expanding(e))],
                  View(multiset{}, Last(run).f.visited, false, i + 1, "h", Last(run).h.born,
                       Last(run).h.answers + {NodeAnswer(i)}))
  {
    more := ChainPop(n, m, i, run, item);
    more, e := OpenPage(Chain(m), more, 1, item, Response("h", [Node(i + 1)]));
  }

  lemma ChainPop(n: nat, m: nat, i: nat, run: seq<State>, item: Item) returns (more: seq<State>)
    requires OnChain(n, m, i, run, item) && i < m
    ensures SceneOf(Chain(m), more)
         == Scene(run[0], ReadyCrew(n)[2 := Pop(Polling(false))][1 := Busy(item, Leasing)],
                  View(multiset{}, Last(run).f.visited, false, i, "h", Last(run).h.born, Last(run).h.answers))
  {
    more := PopItem(Chain(m), run, 1, item);
    assert multiset{item} - multiset{item} == multiset{};
  }

  // The store is free and nobody is parked.
  lemma ChainReady(n: nat, item: Item, e: Expansion)
    requires n >= 2
    ensures var ws := ReadyCrew(n)[2 := Pop(Polling(false))][1 := Busy(item, Expanding(e))];
      StoreFree(ws) && !SomeoneWaiting(ws) && |ws| > 1 && ws[1] == Busy(item, Expanding(e))
  {
  }

  lemma ChainLink(n: nat, m: nat, i: nat, run: seq<State>, item: Item) returns (more: seq<State>, e: Expansion, child: Item)
    requires OnChain(n, m, i, run, item) && i < m < 0x1_0000_0000_0000_0000
    ensures e.next == |e.links| && child.url == Node(i + 1) && child.depth == i + 1
    ensures SceneOf(Chain(m), more)
         == Scene(run[0], ReadyCrew(n)[2 := Pop(Polling(false))][1 := Busy(item, Expanding(e))],
                  View(multiset{child}, Last(run).f.visited + {PathPrint(Node(i + 1))}, false, i + 1, "h",
                       Last(run).h.born + {(Node(i + 1), i + 1)}, Last(run).h.answers + {NodeAnswer(i)}))
  {
    NodeIsNormal(m, i + 1);
    more, e := ChainPage(n, m, i, run, item);
    ChainReady(n, item, e);
    more, child := PushOnlyLink(Chain(m), run[0], ReadyCrew(n)[2 := Pop(Polling(false))], SceneOf(Chain(m), more).view,
                                more, 1, item, e, Node(i + 1));
    e := e.(next := 1);
  }

  lemma ChainGrows(n: nat, m: nat, i: nat, run: seq<State>, item: Item) returns (more: seq<State>, child: Item)
    requires OnChain(n, m, i, run, item) && i < m < 0x1_0000_0000_0000_0000
    ensures OnChain(n, m, i + 1, more, child)
  {
    var e;
    more, e, child := ChainLink(n, m, i, run, item);
    more := FinishPage(Chain(m), more, 1, item, e);
  }

  lemma {:induction false} ChainReaches(n: nat, m: nat, i: nat) returns (run: seq<State>, item: Item)
    requires n >= 2 && 1 <= m < 0x1_0000_0000_0000_0000 && i <= m
    ensures OnChain(n, m, i, run, item)
  {
    if i == 0 {
      run, item := ChainStarts(n, m);
    } else {
      run, item := ChainReaches(n, m, i - 1);
      run, item := ChainGrows(n, m, i - 1, run, item);
    }
  }

  // The budget is spent and worker 2 takes the next page.
  lemma ChainSpent(n: nat, m: nat) returns (run: seq<State>, item: Item)
    requires n >= 2 && 1 <= m < 0x1_0000_0000_0000_0000
    ensures Origin(Chain(m), run) == Some(Fresh(Chain(m), n)) && item.url == Node(m)
    ensures Last(run).ws == ReadyCrew(n)[2 := Busy(item, Loading)] && Last(run).t.fetched == m
    ensures forall a :: a in Last(run).h.answers ==> a.0.0 != Node(m)
  {
    run, item := ChainReaches(n, m, m);
    forall a | a in Last(run).h.answers ensures a.0.0 != Node(m) {
      var k: nat :| k < m && a.0.0 == Node(k);
      NodesDiffer(k, m);
    }
    run := TakeTop(Chain(m), run, 2, item);
    run := Admit(Chain(m), run, 2, item);
  }

  // It has to drop it.
  lemma ChainDrops(n: nat, m: nat) returns (run: seq<State>)
    requires n >= 2 && 1 <= m < 0x1_0000_0000_0000_0000
    ensures FreshRun(Chain(m), run) && run[0] == Fresh(Chain(m), n) && Last(run).h.dropped > 0
    ensures PathPrint(Node(m)) in Last(run).h.done && forall a :: a in Last(run).h.answers ==> a.0.0 != Node(m)
  {
    var c := Chain(m);
    var item;
    run, item := ChainSpent(n, m);
    run := LoadCount(c, run, 2, item);
    Accounting.BooksAlways(c, run);
    run := Overdraw(c, run, 2, item);
    run := Reject(c, run, 2, item);
    run := RejectLoud(c, run, 2, item);
    run := DeleteRow(c, run, 2, item, Dropped);
  }

  // The URL dropped was never asked for, and no later process queues or accepts it.
  lemma DropIsForGood(n: nat, m: nat) returns (run: seq<State>)
    requires n >= 2 && 1 <= m < 0x1_0000_0000_0000_0000
    ensures FreshRun(Chain(m), run) && run[0] == Fresh(Chain(m), n) && Last(run).h.dropped > 0
    ensures forall a :: a in Last(run).h.answers ==> a.0.0 != Node(m)
    ensures forall s' :: Crash(Chain(m), Last(run), s') ==>
      PathPrint(Node(m)) in s'.f.visited && forall item :: item in s'.f.queue ==> item.url != Node(m)
  {
    run := ChainDrops(n, m);
    forall s' | Crash(Chain(m), Last(run), s')
      ensures PathPrint(Node(m)) in s'.f.visited && forall item :: item in s'.f.queue ==> item.url != Node(m)
    {
      RunsAreLong(Chain(m), run);
      DoneStaysDone(Chain(m), run, s', Node(m));
    }
  }

  lemma DoneStaysDone(c: Config, run: seq<State>, s': State, url: Url)
    requires LongRun(c, run) && Crash(c, Last(run), s') && c.fp(url) in Last(run).h.done
    ensures c.fp(url) in s'.f.visited && forall item :: item in s'.f.queue ==> item.url != url
  {
    var more := run + [s'];
    forall i | 0 < i < |more| ensures Next(c, more[i - 1], more[i]) || Crash(c, more[i - 1], more[i]) {
      if i < |run| { assert Next(c, run[i - 1], run[i]) || Crash(c, run[i - 1], run[i]); }
    }
    var probe := Item(url, 0, None, 0, 0);
    assert Last(run) == more[|run| - 1];
    GoneForGood(c, more, |run| - 1, probe);
    forall item | item in s'.f.queue ensures item.url != url {
      if item.url == url { GoneForGood(c, more, |run| - 1, item); }
    }
  }
}
