// The engine's worker loop with one worker and no store, as a program: an exact
// breadth-first search (crates/engine/src/lib.rs:178-370).
module SoloCrawl {
  import opened Prelude
  import opened Urls
  import opened Protocol
  import opened Coverage
  import opened FrontierQueue
  import opened Selections
  import Termination

  // What breaker, robots and fetch make of a URL.
  datatype Verdict = Refuse | Fail | Serve(response: Response)

  function SiteOf(verdict: Url -> Verdict): Site {
    (url: Url) => match verdict(url) case Serve(response) => Some(response) case _ => None
  }

  // ----- what is known at any time -----

  // Every item accepted, under its fingerprint.
  type Known = map<Fp, Item>

  ghost predicate Indexed(c: Config, known: Known) {
    forall fp :: fp in known ==> c.fp(known[fp].url) == fp
  }

  function With(c: Config, known: Known, item: Item): Known {
    known[c.fp(item.url) := item]
  }

  ghost predicate Placed(c: Config, site: Site, item: Item) {
    Reach(c, site, item.url, item.depth) && item.depth <= c.maxDepth && item.priority == Score(item.depth)
  }

  predicate FoundBy(c: Config, known: Known, to: Url, d: nat) {
    c.fp(to) in known && known[c.fp(to)].depth <= d
  }

  // Every link of a processed page leads to a known item at most one level deeper.
  ghost predicate LinksFound(c: Config, site: Site, known: Known, item: Item) {
    item.depth < c.maxDepth ==>
      forall to :: Links(c, site, item.url, to) ==> FoundBy(c, known, to, item.depth + 1)
  }

  ghost predicate DepthAtMost(known: Known, d: nat) {
    forall fp :: fp in known ==> known[fp].depth <= d
  }

  // ----- the link loop -----

  // An item one level below a page that links to it.
  ghost predicate IsChildOf(c: Config, site: Site, item: Item, child: Item) {
    child.depth == item.depth + 1 && child.priority == Score(child.depth) && Links(c, site, item.url, child.url)
  }

  // What a page adds: new items, one level below it.
  ghost predicate Adds(c: Config, site: Site, item: Item, before: Known, known: Known, added: seq<Item>) {
    && (forall i :: 0 <= i < |added| ==> IsChildOf(c, site, item, added[i]))
    && multiset(known.Values) == multiset(before.Values) + multiset(added) && |known| == |before| + |added|
    && (forall fp :: fp in before ==> fp in known && known[fp] == before[fp])
  }

  predicate Looked(c: Config, scope: string, links: seq<Url>, k: nat, known: Known) {
    forall j :: 0 <= j < k && j < |links| && c.InScope(scope, links[j]) ==> c.fp(c.Norm(links[j])) in known
  }

  lemma AddsMore(c: Config, site: Site, item: Item, before: Known, known: Known, added: seq<Item>, child: Item)
    requires Indexed(c, known) && Adds(c, site, item, before, known, added)
    requires c.fp(child.url) !in known && IsChildOf(c, site, item, child)
    ensures Indexed(c, With(c, known, child)) && Adds(c, site, item, before, With(c, known, child), added + [child])
  {
    ValuesWith(c, known, child);
    assert multiset(added + [child]) == multiset(added) + multiset{child};
    forall i | 0 <= i < |added + [child]| ensures IsChildOf(c, site, item, (added + [child])[i]) {
      if i < |added| { assert IsChildOf(c, site, item, added[i]); }
    }
  }

  lemma ValuesWith(c: Config, known: Known, child: Item)
    requires Indexed(c, known) && c.fp(child.url) !in known
    ensures multiset(With(c, known, child).Values) == multiset(known.Values) + multiset{child}
  {
    var more := With(c, known, child);
    forall x | x in known.Values ensures x in more.Values {
      assert more[c.fp(x.url)] == x;
    }
    assert more[c.fp(child.url)] == child;
    assert more.Values == known.Values + {child} && child !in known.Values;
  }

  lemma LookedMore(c: Config, scope: string, links: seq<Url>, k: nat, before: Known, known: Known)
    requires Looked(c, scope, links, k, before) && before.Keys <= known.Keys && k < |links|
    requires c.InScope(scope, links[k]) ==> c.fp(c.Norm(links[k])) in known
    ensures Looked(c, scope, links, k + 1, known)
  {
  }

  lemma Appended(queue: seq<Item>, added: seq<Item>, child: Item)
    ensures forall q :: queue == q + added ==> queue + [child] == q + (added + [child])
  {
    forall q | queue == q + added ensures queue + [child] == q + (added + [child]) {
      assert (q + added) + [child] == q + (added + [child]);
    }
  }

  // Pushes one in-scope link of the page.
  method PushLink(f: FrontierQueue.Frontier, item: Item, link: Url, ghost site: Site, ghost before: Known,
                  ghost known: Known, ghost added: seq<Item>)
    returns (accepted: bool, ghost known': Known, ghost added': seq<Item>)
    requires f.Valid() && f.store == null && Indexed(f.c, known) && f.visited == known.Keys
    requires Adds(f.c, site, item, before, known, added) && Links(f.c, site, item.url, f.c.Norm(link))
    modifies f`queue, f`visited, f`pending, f`nextSeq
    ensures f.Valid() && Indexed(f.c, known') && f.visited == known'.Keys
    ensures known'.Keys == known.Keys + {f.c.fp(f.c.Norm(link))} && Adds(f.c, site, item, before, known', added')
    ensures f.pending == old(f.pending) + |added'| - |added| && |added'| == |added| + (if accepted then 1 else 0)
    ensures forall q :: old(f.queue) == q + added ==> f.queue == q + added'
  {
    known', added' := known, added;
    ghost var child := Child(f.c, link, item.depth + 1, Some(item.url), f.nextSeq);
    accepted := f.TryPush(link, item.depth + 1, Some(item.url));
    if accepted {
      AddsMore(f.c, site, item, before, known, added, child);
      known', added' := With(f.c, known, child), added + [child];
      Appended(old(f.queue), added, child);
    }
  }

  // Pushes the in-scope links of one page; `added` is what was accepted.
  method PushLinks(f: FrontierQueue.Frontier, item: Item, links: seq<Url>, scope: string,
                   ghost site: Site, ghost before: Known)
    returns (discovered: int, ghost known: Known, ghost added: seq<Item>)
    requires f.Valid() && f.store == null && Indexed(f.c, before) && f.visited == before.Keys
    requires site(item.url).Some? && links == site(item.url).value.links && scope == ScopeOf(f.c, site)
    requires DepthAtMost(before, item.depth + 1)
    modifies f`queue, f`visited, f`pending, f`nextSeq
    ensures f.Valid() && Indexed(f.c, known) && f.visited == known.Keys
    ensures f.queue == old(f.queue) + added && f.pending == old(f.pending) + |added| && discovered == |added|
    ensures Adds(f.c, site, item, before, known, added)
    ensures LinksFound(f.c, site, known, item)
  {
    discovered, known, added := 0, before, [];
    var k := 0;
    while k < |links|
      invariant 0 <= k <= |links|
      invariant f.Valid() && Indexed(f.c, known) && f.visited == known.Keys
      invariant f.queue == old(f.queue) + added && f.pending == old(f.pending) + |added| && discovered == |added|
      invariant Adds(f.c, site, item, before, known, added)
      invariant Looked(f.c, scope, links, k, known)
    {
      ghost var was := known;
      if f.c.InScope(scope, links[k]) {
        var accepted;
        accepted, known, added := PushLink(f, item, links[k], site, before, known, added);
        if accepted { discovered := discovered + 1; }
      }
      LookedMore(f.c, scope, links, k, was, known);
      k := k + 1;
    }
    AllFound(f.c, site, item, before, known, added, scope);
  }

  lemma AllFound(c: Config, site: Site, item: Item, before: Known, known: Known, added: seq<Item>, scope: string)
    requires site(item.url).Some? && scope == ScopeOf(c, site)
    requires Adds(c, site, item, before, known, added) && DepthAtMost(before, item.depth + 1)
    requires Looked(c, scope, site(item.url).value.links, |site(item.url).value.links|, known)
    ensures LinksFound(c, site, known, item)
  {
    forall fp | fp in known ensures known[fp].depth <= item.depth + 1 {
      assert known[fp] in multiset(known.Values);
    }
  }

  // ----- the invariant of the search -----

  function Level(order: seq<Item>): nat {
    if order == [] then 0 else order[|order| - 1].depth
  }

  // Depths never go back, and the queue is at most one level ahead.
  predicate InLayers(order: seq<Item>, queue: seq<Item>) {
    && (forall i, j :: 0 <= i < j < |order| ==> order[i].depth <= order[j].depth)
    && (forall j :: 0 <= j < |queue| ==> Level(order) <= queue[j].depth <= Level(order) + 1)
  }

  ghost predicate Search(c: Config, site: Site, known: Known, order: seq<Item>, queue: seq<Item>) {
    && Indexed(c, known) && InLayers(order, queue)
    && multiset(known.Values) == multiset(order) + multiset(queue)
    && (forall fp :: fp in known ==> Placed(c, site, known[fp]))
    && (forall i :: 0 <= i < |order| ==> LinksFound(c, site, known, order[i]))
    && FoundBy(c, known, c.Norm(c.seed), 0)
  }

  lemma DoneOrQueued(known: Known, order: seq<Item>, queue: seq<Item>, item: Item)
    requires multiset(known.Values) == multiset(order) + multiset(queue)
    ensures item in known.Values <==> item in order || item in queue
  {
    assert item in known.Values <==> item in multiset(known.Values);
  }

  // The item on top of the queue is on the lowest open level.
  lemma TopIsShallowest(c: Config, site: Site, known: Known, order: seq<Item>, queue: seq<Item>, item: Item)
    requires Search(c, site, known, order, queue) && IsTop(multiset(queue), item)
    ensures Placed(c, site, item) && item in known.Values
    ensures Level(order) <= item.depth && DepthAtMost(known, item.depth + 1)
    ensures forall j :: 0 <= j < |queue| ==> item.depth <= queue[j].depth
  {
    DoneOrQueued(known, order, queue, item);
    forall j | 0 <= j < |queue| ensures item.depth <= queue[j].depth {
      DoneOrQueued(known, order, queue, queue[j]);
      assert queue[j] in multiset(queue);
      assert Above(item, queue[j]);
    }
    forall fp | fp in known ensures known[fp].depth <= item.depth + 1 {
      DoneOrQueued(known, order, queue, known[fp]);
    }
  }

  lemma ChildrenPlaced(c: Config, site: Site, item: Item, before: Known, known: Known, added: seq<Item>)
    requires Adds(c, site, item, before, known, added) && (added != [] ==> item.depth < c.maxDepth)
    requires Placed(c, site, item) && forall fp :: fp in before ==> Placed(c, site, before[fp])
    ensures forall fp :: fp in known ==> Placed(c, site, known[fp])
  {
    forall fp | fp in known ensures Placed(c, site, known[fp]) {
      assert known[fp] in multiset(known.Values);
      if known[fp] in before.Values {
        var k :| k in before && before[k] == known[fp];
      } else {
        assert known[fp] in added;
        var i :| 0 <= i < |added| && added[i] == known[fp];
        assert IsChildOf(c, site, item, added[i]);
      }
    }
  }

  lemma LayersKept(order: seq<Item>, queue: seq<Item>, item: Item, rest: seq<Item>, added: seq<Item>)
    requires InLayers(order, queue) && Level(order) <= item.depth
    requires forall j :: 0 <= j < |queue| ==> item.depth <= queue[j].depth
    requires multiset(rest) + multiset{item} == multiset(queue)
    requires forall i :: 0 <= i < |added| ==> added[i].depth == item.depth + 1
    ensures InLayers(order + [item], rest + added)
  {
    assert Level(order + [item]) == item.depth;
    forall j | 0 <= j < |rest| ensures rest[j] in queue {
      assert rest[j] in multiset(rest) && rest[j] in multiset(queue);
    }
  }

  // Processing the top item keeps the invariant.
  lemma Advance(c: Config, site: Site, before: Known, known: Known, order: seq<Item>, queue: seq<Item>, item: Item,
                rest: seq<Item>, added: seq<Item>)
    requires Search(c, site, before, order, queue) && IsTop(multiset(queue), item) && Indexed(c, known)
    requires multiset(rest) + multiset{item} == multiset(queue)
    requires Adds(c, site, item, before, known, added) && (added != [] ==> item.depth < c.maxDepth)
    requires LinksFound(c, site, known, item)
    ensures Search(c, site, known, order + [item], rest + added)
  {
    TopIsShallowest(c, site, before, order, queue, item);
    LayersKept(order, queue, item, rest, added);
    ChildrenPlaced(c, site, item, before, known, added);
    forall i | 0 <= i < |order + [item]| ensures LinksFound(c, site, known, (order + [item])[i]) {
      if i < |order| { LinksStillFound(c, site, before, known, order[i]); }
    }
  }

  lemma LinksStillFound(c: Config, site: Site, before: Known, known: Known, item: Item)
    requires LinksFound(c, site, before, item)
    requires forall fp :: fp in before ==> fp in known && known[fp] == before[fp]
    ensures LinksFound(c, site, known, item)
  {
  }

  // ----- what the search has found -----

  // Reachable URLs within `max_depth`, none twice, level by level.
  ghost predicate InBfsOrder(c: Config, site: Site, order: seq<Item>) {
    && (forall i, j :: 0 <= i < j < |order| ==> order[i].depth <= order[j].depth && order[i].url != order[j].url)
    && (forall i :: 0 <= i < |order| ==> Reach(c, site, order[i].url, order[i].depth) && order[i].depth <= c.maxDepth)
  }

  ghost predicate AllShortest(c: Config, site: Site, order: seq<Item>) {
    forall i :: 0 <= i < |order| ==> Shortest(c, site, order[i].url, order[i].depth)
  }

  ghost predicate AllProcessed(c: Config, site: Site, order: seq<Item>) {
    forall url :: ReachWithin(c, site, url, c.maxDepth) ==> Processed(order, url)
  }

  predicate Processed(order: seq<Item>, url: Url) { exists i :: 0 <= i < |order| && order[i].url == url }

  // Exactly the URLs within `max_depth`, each once, by level, at its shortest distance.
  ghost predicate ExactBfs(c: Config, site: Site, order: seq<Item>) {
    InBfsOrder(c, site, order) && AllShortest(c, site, order) && AllProcessed(c, site, order)
  }

  // How far the search is complete: to the lowest open level, or all the way.
  function Horizon(c: Config, order: seq<Item>, queue: seq<Item>): nat {
    if queue == [] || c.maxDepth < Level(order) then c.maxDepth else Level(order)
  }

  lemma {:induction false} ReachKnown(c: Config, site: Site, known: Known, order: seq<Item>, queue: seq<Item>,
                                      url: Url, d: nat)
    requires Search(c, site, known, order, queue) && Distinct(c, site, c.maxDepth)
    requires Reach(c, site, url, d) && d <= Horizon(c, order, queue)
    ensures FoundBy(c, known, url, d) && known[c.fp(url)].url == url
    decreases d
  {
    if d > 0 {
      var from :| Reach(c, site, from, d - 1) && Links(c, site, from, url);
      ReachKnown(c, site, known, order, queue, from, d - 1);
      BelowHorizon(c, site, known, order, queue, known[c.fp(from)]);
    }
    SameByFingerprint(c, site, known, url, d);
  }

  // An item below the horizon is processed, so its links are known.
  lemma BelowHorizon(c: Config, site: Site, known: Known, order: seq<Item>, queue: seq<Item>, item: Item)
    requires Search(c, site, known, order, queue) && item in known.Values && item.depth < Horizon(c, order, queue)
    ensures LinksFound(c, site, known, item)
  {
    DoneOrQueued(known, order, queue, item);
  }

  lemma SameByFingerprint(c: Config, site: Site, known: Known, url: Url, d: nat)
    requires Indexed(c, known) && FoundBy(c, known, url, d) && Distinct(c, site, c.maxDepth)
    requires Placed(c, site, known[c.fp(url)]) && Reach(c, site, url, d) && d <= c.maxDepth
    ensures known[c.fp(url)].url == url
  {
    var item := known[c.fp(url)];
    assert ReachWithin(c, site, item.url, c.maxDepth) && ReachWithin(c, site, url, c.maxDepth);
  }

  lemma DoneIsKnown(c: Config, known: Known, order: seq<Item>, queue: seq<Item>, i: nat)
    requires multiset(known.Values) == multiset(order) + multiset(queue) && Indexed(c, known) && i < |order|
    ensures c.fp(order[i].url) in known && known[c.fp(order[i].url)] == order[i]
  {
    DoneOrQueued(known, order, queue, order[i]);
  }

  lemma OnceEach(c: Config, known: Known, order: seq<Item>, queue: seq<Item>, i: nat, j: nat)
    requires multiset(known.Values) == multiset(order) + multiset(queue) && Indexed(c, known) && i < j < |order|
    ensures c.fp(order[i].url) != c.fp(order[j].url)
  {
    if c.fp(order[i].url) == c.fp(order[j].url) {
      DoneIsKnown(c, known, order, queue, i);
      DoneIsKnown(c, known, order, queue, j);
      assert multiset(known.Values)[order[i]] == (multiset(order) + multiset(queue))[order[i]];
      Twice(order, i, j);
    }
  }

  lemma OrderIsBfs(c: Config, site: Site, known: Known, order: seq<Item>, queue: seq<Item>)
    requires Search(c, site, known, order, queue)
    ensures InBfsOrder(c, site, order)
  {
    forall i, j | 0 <= i < j < |order| ensures order[i].url != order[j].url { OnceEach(c, known, order, queue, i, j); }
    forall i | 0 <= i < |order| ensures Placed(c, site, order[i]) { DoneIsKnown(c, known, order, queue, i); }
  }

  // At any time, finished or stopped: no processed item has a shorter path.
  lemma OrderIsShortest(c: Config, site: Site, known: Known, order: seq<Item>, queue: seq<Item>)
    requires Search(c, site, known, order, queue) && Distinct(c, site, c.maxDepth)
    ensures AllShortest(c, site, order)
  {
    forall i | 0 <= i < |order| ensures Shortest(c, site, order[i].url, order[i].depth) {
      DoneIsKnown(c, known, order, queue, i);
      assert order[i].depth <= Level(order);
      forall d: nat | Reach(c, site, order[i].url, d) ensures order[i].depth <= d {
        if d < order[i].depth { ReachKnown(c, site, known, order, queue, order[i].url, d); }
      }
    }
  }

  // With nothing queued, everything within `max_depth` was processed exactly if no two
  // of those URLs share a fingerprint.
  lemma Exhausted(c: Config, site: Site, known: Known, order: seq<Item>)
    requires Search(c, site, known, order, [])
    ensures AllProcessed(c, site, order) <==> Distinct(c, site, c.maxDepth)
  {
    if Distinct(c, site, c.maxDepth) {
      forall url | ReachWithin(c, site, url, c.maxDepth) ensures Processed(order, url) {
        var d: nat :| d <= c.maxDepth && Reach(c, site, url, d);
        ReachKnown(c, site, known, order, [], url, d);
        DoneOrQueued(known, order, [], known[c.fp(url)]);
      }
    }
    if AllProcessed(c, site, order) { ProcessedAreDistinct(c, site, known, order); }
  }

  lemma ProcessedAreDistinct(c: Config, site: Site, known: Known, order: seq<Item>)
    requires Search(c, site, known, order, []) && AllProcessed(c, site, order)
    ensures Distinct(c, site, c.maxDepth)
  {
    forall a, b | ReachWithin(c, site, a, c.maxDepth) && ReachWithin(c, site, b, c.maxDepth) && c.fp(a) == c.fp(b)
      ensures a == b
    {
      assert Processed(order, a) && Processed(order, b);
      var i :| 0 <= i < |order| && order[i].url == a;
      var j :| 0 <= j < |order| && order[j].url == b;
      DoneIsKnown(c, known, order, [], i);
      DoneIsKnown(c, known, order, [], j);
    }
  }

  lemma FoundSoFar(c: Config, site: Site, known: Known, order: seq<Item>, queue: seq<Item>)
    requires Search(c, site, known, order, queue)
    ensures InBfsOrder(c, site, order)
    ensures Distinct(c, site, c.maxDepth) ==> AllShortest(c, site, order)
    ensures queue == [] ==> (ExactBfs(c, site, order) <==> Distinct(c, site, c.maxDepth))
  {
    OrderIsBfs(c, site, known, order, queue);
    if Distinct(c, site, c.maxDepth) { OrderIsShortest(c, site, known, order, queue); }
    if queue == [] { Exhausted(c, site, known, order); }
  }

  // ----- the statistics -----

  // One item's entry.
  function Filed(c: Config, verdict: Url -> Verdict, t: Stats, item: Item): Stats {
    match verdict(item.url)
    case Refuse => t.(skipped := t.skipped + 1)
    case Fail => t.(errors := t.errors + 1, errorLog := t.errorLog + [item.url])
    case Serve(response) =>
      t.(fetched := t.fetched + Bit(c.maxUrls.Some?), pages := t.pages + [PageRecord(item.url, item.depth, response.links)])
  }

  // What the crawl reports after processing `order`, apart from what it discovered.
  ghost function Report(c: Config, verdict: Url -> Verdict, order: seq<Item>): Stats {
    if order == [] then Stats(0, 0, 0, 0, [], [])
    else Filed(c, verdict, Report(c, verdict, order[..|order| - 1]), order[|order| - 1])
  }

  lemma ReportMore(c: Config, verdict: Url -> Verdict, order: seq<Item>, item: Item, t: Stats, d: int)
    requires t == Report(c, verdict, order).(discovered := t.discovered)
    ensures Filed(c, verdict, t, item).(discovered := d) == Report(c, verdict, order + [item]).(discovered := d)
  {
    assert (order + [item])[..|order|] == order;
  }

  // Every item ends as a page, an error or a skip; `fetched` counts the pages, and
  // only when there is a limit.
  lemma {:induction false} ReportAddsUp(c: Config, verdict: Url -> Verdict, order: seq<Item>)
    ensures var t := Report(c, verdict, order);
      |t.pages| + t.errors + t.skipped == |order| && t.errors == |t.errorLog|
      && t.fetched == (if c.maxUrls.Some? then |t.pages| else 0)
  {
    if order != [] { ReportAddsUp(c, verdict, order[..|order| - 1]); }
  }

  function Serves(verdict: Url -> Verdict, order: seq<Item>): nat -> bool {
    (i: nat) => i < |order| && verdict(order[i].url).Serve?
  }

  function Fails(verdict: Url -> Verdict, order: seq<Item>): nat -> bool {
    (i: nat) => i < |order| && verdict(order[i].url).Fail?
  }

  predicate PagesOf(verdict: Url -> Verdict, served: seq<Item>, pages: seq<PageRecord>) {
    |pages| == |served| && forall k :: 0 <= k < |served| ==>
      verdict(served[k].url).Serve?
      && pages[k] == PageRecord(served[k].url, served[k].depth, verdict(served[k].url).response.links)
  }

  predicate UrlsOf(failed: seq<Item>, errorLog: seq<Url>) {
    |errorLog| == |failed| && forall k :: 0 <= k < |failed| ==> errorLog[k] == failed[k].url
  }

  // The pages are those of the items served, in order, each with the links of its
  // response; the error list has those that failed. What is refused is in neither.
  lemma {:induction false} ReportLists(c: Config, verdict: Url -> Verdict, order: seq<Item>)
    returns (served: seq<Item>, failed: seq<Item>)
    ensures Selects(served, order, Serves(verdict, order)) && PagesOf(verdict, served, Report(c, verdict, order).pages)
    ensures Selects(failed, order, Fails(verdict, order)) && UrlsOf(failed, Report(c, verdict, order).errorLog)
  {
    if order == [] {
      served, failed := [], [];
      SelectsNothing<Item>(Serves(verdict, order));
      SelectsNothing<Item>(Fails(verdict, order));
    } else {
      var front, item := order[..|order| - 1], order[|order| - 1];
      served, failed := ReportLists(c, verdict, front);
      assert front + [item] == order;
      SelectsSame(served, front, Serves(verdict, front), Serves(verdict, order));
      SelectsSame(failed, front, Fails(verdict, front), Fails(verdict, order));
      SelectsMore(served, front, item, Serves(verdict, order));
      SelectsMore(failed, front, item, Fails(verdict, order));
      if verdict(item.url).Serve? { served := served + [item]; }
      if verdict(item.url).Fail? { failed := failed + [item]; }
    }
  }

  // ----- the worker loop -----

  // The scope host is settled by the time anything but the seed is processed.
  ghost predicate Scoped(c: Config, site: Site, order: seq<Item>, scope: string) {
    if order == [] then scope == c.seed.host else scope == ScopeOf(c, site)
  }

  // Nothing but the seed is queued before it is processed.
  predicate SeedFirst(order: seq<Item>, queue: seq<Item>) {
    order == [] ==> forall j :: 0 <= j < |queue| ==> queue[j].depth == 0
  }

  lemma SettledAfter(c: Config, site: Site, order: seq<Item>, item: Item, queue: seq<Item>, scope: string)
    requires scope == ScopeOf(c, site)
    ensures Scoped(c, site, order + [item], scope) && SeedFirst(order + [item], queue)
  {
  }

  // A page came in: the scope host, its links, its record.
  method ServePage(f: FrontierQueue.Frontier, verdict: Url -> Verdict, item: Item, response: Response, scope: string, t: Stats,
                   ghost before: Known)
    returns (t': Stats, scope': string, ghost known: Known, ghost added: seq<Item>)
    requires f.Valid() && f.store == null && Indexed(f.c, before) && f.visited == before.Keys
    requires DepthAtMost(before, item.depth + 1) && verdict(item.url) == Serve(response)
    requires if item.depth == 0 then item.url == f.c.Norm(f.c.seed) else scope == ScopeOf(f.c, SiteOf(verdict))
    modifies f`queue, f`visited, f`pending, f`nextSeq
    ensures f.Valid() && Indexed(f.c, known) && f.visited == known.Keys
    ensures f.queue == old(f.queue) + added && f.pending == old(f.pending) + |added|
    ensures Adds(f.c, SiteOf(verdict), item, before, known, added) && (added != [] ==> item.depth < f.c.maxDepth)
    ensures LinksFound(f.c, SiteOf(verdict), known, item)
    ensures scope' == ScopeOf(f.c, SiteOf(verdict))
    ensures t' == Filed(f.c, verdict, t, item).(discovered := t.discovered + |added|)
  {
    t', scope', known, added := t, scope, before, [];
    if f.c.maxUrls.Some? { t' := t'.(fetched := t'.fetched + 1); }
    if item.depth == 0 { scope' := response.finalHost; }
    if item.depth < f.c.maxDepth {
      var discovered;
      discovered, known, added := PushLinks(f, item, response.links, scope', SiteOf(verdict), before);
      t' := t'.(discovered := t'.discovered + discovered);
    }
    t' := t'.(pages := t'.pages + [PageRecord(item.url, item.depth, response.links)]);
  }

  // From the verdicts to `complete`.
  method Process(f: FrontierQueue.Frontier, verdict: Url -> Verdict, item: Item, scope: string, t: Stats,
                 ghost before: Known, ghost first: bool)
    returns (t': Stats, scope': string, ghost known: Known, ghost added: seq<Item>)
    requires f.Valid() && f.store == null && Indexed(f.c, before) && f.visited == before.Keys
    requires DepthAtMost(before, item.depth + 1)
    requires first || scope == ScopeOf(f.c, SiteOf(verdict))
    requires first ==> scope == f.c.seed.host && item.depth == 0
    requires item.depth == 0 ==> item.url == f.c.Norm(f.c.seed)
    modifies f`queue, f`visited, f`pending, f`nextSeq
    ensures f.Valid() && Indexed(f.c, known) && f.visited == known.Keys
    ensures f.queue == old(f.queue) + added && f.pending == old(f.pending) + |added| - 1
    ensures Adds(f.c, SiteOf(verdict), item, before, known, added) && (added != [] ==> item.depth < f.c.maxDepth)
    ensures LinksFound(f.c, SiteOf(verdict), known, item)
    ensures scope' == ScopeOf(f.c, SiteOf(verdict))
    ensures t' == Filed(f.c, verdict, t, item).(discovered := t.discovered + |added|)
  {
    t', scope', known, added := t, scope, before, [];
    match verdict(item.url) {
      case Refuse =>
        t' := t'.(skipped := t'.skipped + 1);
      case Fail =>
        // The reserved slot is given back.
        t' := t'.(errors := t'.errors + 1, errorLog := t'.errorLog + [item.url]);
      case Serve(response) =>
        t', scope', known, added := ServePage(f, verdict, item, response, scope, t, before);
    }
    f.Complete(item);
  }

  // Everything true of the search between two items.
  ghost predicate AtRest(f: FrontierQueue.Frontier, verdict: Url -> Verdict, known: Known, order: seq<Item>, scope: string)
    reads f
  {
    && f.Valid() && !f.stopped && f.store == null && f.visited == known.Keys && f.pending == |f.queue|
    && Search(f.c, SiteOf(verdict), known, order, f.queue) && Scoped(f.c, SiteOf(verdict), order, scope)
    && SeedFirst(order, f.queue)
  }

  // And of the books, with this many items queued.
  ghost predicate Booked(c: Config, verdict: Url -> Verdict, order: seq<Item>, left: nat, t: Stats) {
    t == Report(c, verdict, order).(discovered := |order| + left - 1)
  }

  lemma BookedMore(c: Config, verdict: Url -> Verdict, order: seq<Item>, left: nat, t: Stats, item: Item, grown: nat)
    requires Booked(c, verdict, order, left, t) && left > 0
    ensures var t' := Filed(c, verdict, t, item).(discovered := t.discovered + grown);
      Booked(c, verdict, order + [item], left - 1 + grown, t') && t'.fetched <= t.fetched + 1
  {
    ReportMore(c, verdict, order, item, t, t.discovered + grown);
  }

  lemma SeedKnown(c: Config, site: Site, item: Item)
    requires item.url == c.Norm(c.seed) && item.depth == 0 && item.priority == Score(0)
    ensures Search(c, site, With(c, map[], item), [], [item])
  {
    var known := With(c, map[], item);
    assert known[c.fp(item.url)] == item;
    assert known.Values == {item};
    assert Reach(c, site, item.url, 0);
  }

  method Begin(c: Config, ghost verdict: Url -> Verdict)
    returns (f: FrontierQueue.Frontier, t: Stats, ghost known: Known)
    ensures fresh(f) && f.c == c && AtRest(f, verdict, known, [], c.seed.host)
    ensures Booked(c, verdict, [], |f.queue|, t)
  {
    f := new FrontierQueue.Frontier.New(c);
    var _ := f.TryPush(c.seed, 0, None);
    t := Stats(0, 0, 0, 0, [], []);
    SeedKnown(c, SiteOf(verdict), f.queue[0]);
    known := With(c, map[], f.queue[0]);
    assert f.queue == [f.queue[0]];
  }

  lemma OneLess(queue: seq<Item>, rest: seq<Item>, item: Item)
    requires multiset(rest) + multiset{item} == multiset(queue)
    ensures |queue| == |rest| + 1 && item in queue
  {
    assert |multiset(queue)| == |multiset(rest)| + 1;
    assert item in multiset(queue);
  }

  lemma OnlyTheSeedIsRoot(c: Config, site: Site, known: Known, order: seq<Item>, queue: seq<Item>, item: Item)
    requires Search(c, site, known, order, queue) && IsTop(multiset(queue), item)
    ensures DepthAtMost(known, item.depth + 1) && Indexed(c, known) && (item.depth == 0 ==> item.url == c.Norm(c.seed))
  {
    TopIsShallowest(c, site, known, order, queue, item);
  }

  // The processing of a popped item, and the search after it.
  method Explore(f: FrontierQueue.Frontier, verdict: Url -> Verdict, scope: string, t: Stats, item: Item,
                 ghost before: Known, ghost order: seq<Item>, ghost queue: seq<Item>)
    returns (t': Stats, scope': string, ghost known: Known, ghost grown: nat)
    requires f.Valid() && f.store == null && f.visited == before.Keys && multiset(f.queue) + multiset{item} == multiset(queue)
    requires Search(f.c, SiteOf(verdict), before, order, queue) && IsTop(multiset(queue), item)
    requires Scoped(f.c, SiteOf(verdict), order, scope) && (order == [] ==> item.depth == 0)
    modifies f`queue, f`visited, f`pending, f`nextSeq
    ensures f.Valid() && f.visited == known.Keys && |known| == |before| + grown
    ensures |f.queue| == |old(f.queue)| + grown && f.pending == old(f.pending) + grown - 1
    ensures Search(f.c, SiteOf(verdict), known, order + [item], f.queue)
    ensures scope' == ScopeOf(f.c, SiteOf(verdict))
    ensures t' == Filed(f.c, verdict, t, item).(discovered := t.discovered + grown)
  {
    ghost var rest := f.queue;
    OnlyTheSeedIsRoot(f.c, SiteOf(verdict), before, order, queue, item);
    ghost var added;
    t', scope', known, added := Process(f, verdict, item, scope, t, before, order == []);
    Advance(f.c, SiteOf(verdict), before, known, order, queue, item, rest, added);
    grown := |added|;
  }

  // The same, from one item to the next.
  method Handle(f: FrontierQueue.Frontier, verdict: Url -> Verdict, scope: string, t: Stats, item: Item,
                ghost before: Known, ghost order: seq<Item>, ghost queue: seq<Item>)
    returns (t': Stats, scope': string, ghost known: Known, ghost grown: nat)
    requires f.Valid() && !f.stopped && f.store == null && f.visited == before.Keys && f.pending == |f.queue| + 1
    requires multiset(f.queue) + multiset{item} == multiset(queue) && IsTop(multiset(queue), item)
    requires Search(f.c, SiteOf(verdict), before, order, queue) && Scoped(f.c, SiteOf(verdict), order, scope)
    requires order == [] ==> item.depth == 0
    modifies f`queue, f`visited, f`pending, f`nextSeq
    ensures AtRest(f, verdict, known, order + [item], scope')
    ensures |known| == |before| + grown && |f.queue| == |old(f.queue)| + grown
    ensures t' == Filed(f.c, verdict, t, item).(discovered := t.discovered + grown)
  {
    t', scope', known, grown := Explore(f, verdict, scope, t, item, before, order, queue);
    SettledAfter(f.c, SiteOf(verdict), order, item, f.queue, scope');
  }

  // `pop` and the processing of what it returns. The queue and the pending count
  // agree, so `pop` never waits.
  method Round(f: FrontierQueue.Frontier, verdict: Url -> Verdict, scope: string, t: Stats,
               ghost known: Known, ghost order: seq<Item>)
    returns (done: bool, t': Stats, scope': string, ghost known': Known, ghost order': seq<Item>)
    requires AtRest(f, verdict, known, order, scope) && Booked(f.c, verdict, order, |f.queue|, t)
    modifies f`queue, f`visited, f`pending, f`nextSeq
    ensures AtRest(f, verdict, known', order', scope')
    ensures Booked(f.c, verdict, order', |f.queue|, t') && t'.fetched <= t.fetched + 1
    ensures done ==> f.queue == [] && t' == t && order' == order
    ensures !done ==> |order'| == |order| + 1
    ensures !done ==> |known'| >= |known| && |f.queue| - |known'| < |old(f.queue)| - |known|
  {
    ghost var queue := f.queue;
    done, t', scope', known', order' := true, t, scope, known, order;
    var polled := f.Poll();
    match polled {
      case Leave =>
      case Park =>
        assert false;
      case Got(item) =>
        OneLess(queue, f.queue, item);
        ghost var grown;
        t', scope', known', grown := Handle(f, verdict, scope, t, item, known, order, queue);
        BookedMore(f.c, verdict, order, |queue|, t, item, grown);
        done, order' := false, order + [item];
    }
  }

  lemma KnownBounded(known: Known)
    ensures |known| <= Termination.FINGERPRINTS
  {
    Termination.VisitedBounded(known.Keys, Termination.FINGERPRINTS);
  }

  // The two checks at the loop head.
  predicate LimitReached(c: Config, t: Stats, late: bool) {
    (c.hasDeadline && late) || (c.maxUrls.Some? && t.fetched >= c.maxUrls.value)
  }

  // Never late before any of the first n rounds.
  predicate InTime(c: Config, expired: nat -> bool, n: nat) {
    c.hasDeadline ==> forall k: nat :: k < n ==> !expired(k)
  }

  // n items were handled in time, in as many rounds; a last round found nothing to do.
  predicate OnClock(c: Config, expired: nat -> bool, t: Stats, n: nat, round: nat, done: bool) {
    InTime(c, expired, n) && if done then !LimitReached(c, t, expired(n)) else round == n
  }

  lemma ClockTicks(c: Config, expired: nat -> bool, t: Stats, n: nat, t': Stats, n': nat, done: bool)
    requires OnClock(c, expired, t, n, n, false) && !LimitReached(c, t, expired(n))
    requires if done then n' == n && t' == t else n' == n + 1
    ensures OnClock(c, expired, t', n', n + 1, done)
  {
  }

  // Rounds until nothing is left or a limit stops the crawl.
  method Rounds(f: FrontierQueue.Frontier, verdict: Url -> Verdict, expired: nat -> bool, t: Stats, ghost first: Known)
    returns (t': Stats, stopped: bool, ghost known: Known, ghost order: seq<Item>)
    requires AtRest(f, verdict, first, [], f.c.seed.host) && Booked(f.c, verdict, [], |f.queue|, t)
    modifies f`queue, f`visited, f`pending, f`nextSeq, f`stopped
    ensures Booked(f.c, verdict, order, |f.queue|, t')
    ensures Search(f.c, SiteOf(verdict), known, order, f.queue) && (!stopped ==> f.queue == [])
    ensures f.c.maxUrls.Some? ==> t'.fetched <= f.c.maxUrls.value
    ensures InTime(f.c, expired, |order|)
    ensures stopped <==> LimitReached(f.c, t', expired(|order|))
  {
    var scope, round: nat, done := f.c.seed.host, 0, false;
    t', order, stopped, known := t, [], false, first;
    while !done
      invariant AtRest(f, verdict, known, order, scope) && Booked(f.c, verdict, order, |f.queue|, t')
      invariant f.c.maxUrls.Some? ==> t'.fetched <= f.c.maxUrls.value
      invariant done ==> f.queue == []
      invariant OnClock(f.c, expired, t', |order|, round, done)
      decreases !done, Termination.FINGERPRINTS - |known|, |f.queue|
    {
      if LimitReached(f.c, t', expired(round)) {
        f.Stop();
        stopped := true;
        return;
      }
      ghost var was, n := t', |order|;
      done, t', scope, known, order := Round(f, verdict, scope, t', known, order);
      ClockTicks(f.c, expired, was, n, t', |order|, done);
      round := round + 1;
      KnownBounded(known);
    }
  }

  // A crawl with one worker. `expired` is the clock, asked once a round. With one
  // worker nothing happens between the check of the budget and the reservation, so
  // the reservation always succeeds. It stops exactly when the budget is spent or the clock
  // says so, and then at once. Unless stopped, it is the exact breadth-first
  // search if and only if no two URLs within `max_depth` share a fingerprint.
  method CrawlAlone(c: Config, verdict: Url -> Verdict, expired: nat -> bool)
    returns (t: Stats, stopped: bool, left: nat, ghost order: seq<Item>)
    ensures InBfsOrder(c, SiteOf(verdict), order)
    ensures Distinct(c, SiteOf(verdict), c.maxDepth) ==> AllShortest(c, SiteOf(verdict), order)
    ensures !stopped ==> (ExactBfs(c, SiteOf(verdict), order) <==> Distinct(c, SiteOf(verdict), c.maxDepth))
    ensures t == Report(c, verdict, order).(discovered := t.discovered)
    ensures t.discovered + 1 == |t.pages| + t.errors + t.skipped + left && (!stopped ==> left == 0)
    ensures c.maxUrls.Some? ==> |t.pages| <= c.maxUrls.value
    ensures stopped <==> (c.maxUrls.Some? && |t.pages| == c.maxUrls.value) || (c.hasDeadline && expired(|order|))
    ensures InTime(c, expired, |order|)
  {
    var f;
    ghost var known;
    f, t, known := Begin(c, verdict);
    t, stopped, known, order := Rounds(f, verdict, expired, t, known);
    left := |f.queue|;
    ReportAddsUp(c, verdict, order);
    FoundSoFar(c, SiteOf(verdict), known, order, f.queue);
  }
}
