// What a crawl covers does not depend on the schedule: in a drained run of N
// workers every item sits on a real link path as long as its depth, and unless a
// page at `max_depth` cut it short the visited set is exactly what links reach.
module Coverage {
  import opened Prelude
  import opened Urls
  import opened Protocol
  import opened Census
  import opened Wakeups

  // ----- the site -----

  // What the environment answers for each URL: a page, or nothing (error or skip).
  type Site = Url -> Option<Response>

  // Only the processing of the seed can move the scope host.
  function ScopeOf(c: Config, site: Site): string {
    var root := site(c.Norm(c.seed));
    if root.Some? then root.value.finalHost else c.seed.host
  }

  // A link of the page, to any host or, if so configured, to the scope host.
  ghost predicate Links(c: Config, site: Site, from: Url, to: Url) {
    site(from).Some? &&
    exists k :: 0 <= k < |site(from).value.links|
      && (c.sameDomain ==> site(from).value.links[k].host == ScopeOf(c, site))
      && c.Norm(site(from).value.links[k]) == to
  }

  // A path of d in-scope links from the seed.
  ghost predicate Reach(c: Config, site: Site, url: Url, d: nat)
    decreases d
  {
    if d == 0 then url == c.Norm(c.seed)
    else exists from :: Reach(c, site, from, d - 1) && Links(c, site, from, url)
  }

  // Whatever holds of the seed and is passed along links holds of all that links reach.
  lemma {:induction false} ReachBy(c: Config, site: Site, along: (Url, nat) -> bool, url: Url, d: nat)
    requires forall root :: Reach(c, site, root, 0) ==> along(root, 0)
    requires forall from, to, k: nat :: along(from, k) && Links(c, site, from, to) ==> along(to, k + 1)
    requires Reach(c, site, url, d)
    ensures along(url, d)
    decreases d
  {
    if d > 0 {
      var from :| Reach(c, site, from, d - 1) && Links(c, site, from, url);
      ReachBy(c, site, along, from, d - 1);
    }
  }

  ghost predicate ReachWithin(c: Config, site: Site, url: Url, n: nat) {
    exists d: nat :: d <= n && Reach(c, site, url, d)
  }

  ghost predicate NoPathOf(c: Config, site: Site, n: nat) { forall url :: !Reach(c, site, url, n) }

  // No two URLs within n links share a fingerprint.
  ghost predicate Distinct(c: Config, site: Site, n: nat) {
    forall a, b :: ReachWithin(c, site, a, n) && ReachWithin(c, site, b, n) && c.fp(a) == c.fp(b) ==> a == b
  }

  ghost predicate Shortest(c: Config, site: Site, url: Url, d: nat) {
    Reach(c, site, url, d) && forall less: nat :: Reach(c, site, url, less) ==> d <= less
  }

  // The environment answers every item as the site says, whenever it is asked.
  predicate Honest(s: State, site: Site) {
    forall a :: a in s.h.answers ==> a.1 == site(a.0.0)
  }

  // ----- what each thread's phase says -----

  predicate Opened(c: Config, site: Site, e: Expansion) {
    && site(e.item.url).Some? && e.links == site(e.item.url).value.links && e.host == ScopeOf(c, site)
    && e.item.depth < c.maxDepth
  }

  predicate FineTask(c: Config, site: Site, s: State, item: Item, task: Task) {
    match task
    case Answered(response) => site(item.url) == Some(response)
    case Scoping(links) =>
      s.scope == ScopeOf(c, site) && item.depth < c.maxDepth
      && site(item.url).Some? && links == site(item.url).value.links
    case Expanding(e) => e.item == item && e.(next := 0) in s.h.expanded
    case Pushing(e, child, _) => e.item == item && e.(next := 0) in s.h.expanded && Key(child) in s.h.born
    case Tallying(e) => e.item == item && e.(next := 0) in s.h.expanded
    case _ => true
  }

  predicate Fine(c: Config, site: Site, s: State, p: Phase) {
    match p
    case Seeding(child, _) => Key(child) in s.h.born
    case Busy(item, task) => Key(item) in s.h.born && FineTask(c, site, s, item, task)
    case _ => true
  }

  // ----- what the history says -----

  ghost predicate BornFine(c: Config, site: Site, s: State) {
    && (forall b :: b in s.h.born ==>
          Reach(c, site, b.0, b.1) && b.1 <= c.maxDepth && c.fp(b.0) in s.f.visited
          && (b.1 > 0 ==> s.h.expanded != {}))
    && (forall fp :: fp in s.f.visited ==> exists b :: b in s.h.born && c.fp(b.0) == fp)
    && (forall item :: item in s.f.queue ==> Key(item) in s.h.born)
  }

  predicate ExpandedFine(c: Config, site: Site, s: State) {
    && (forall e :: e in s.h.expanded ==> Opened(c, site, e) && e.next == 0 && Key(e.item) in s.h.born)
    && (s.h.expanded != {} ==> s.scope == ScopeOf(c, site))
    && (forall a :: a in s.h.answers ==> a.0 in s.h.born)
    && (forall page :: page in s.t.pages ==> (page.url, page.depth) in s.h.born)
  }

  ghost predicate Sound(c: Config, site: Site, s: State) {
    BornFine(c, site, s) && ExpandedFine(c, site, s) && forall i :: 0 <= i < |s.ws| ==> Fine(c, site, s, s.ws[i])
  }

  // ----- one move, seen from the moving thread -----

  datatype Turn =
    | Nothing
    | NewChild(child: Item)                              // accepted by `visited.insert`
    | Asked(key: (Url, nat), answer: Option<Response>)   // the environment answered
    | Opens(e: Expansion)                                // starts pushing a page's links
    | Rescopes(host: string)
    | Enqueues(child: Item)
    | Dequeues(item: Item)
    | Stops

  function TurnOf(c: Config, s: State, p: Phase, o: Oracle): Turn {
    match p
    case Booting =>
      var url := c.Norm(c.seed);
      if c.fp(url) in s.f.visited then Nothing else NewChild(Item(url, 0, None, Score(0), 0))
    case Seeding(child, stage) => if stage.Heaping? then Enqueues(child) else Nothing
    case Halting => Stops
    case Pop(at) => if at.Polling? && s.f.queue != multiset{} then Dequeues(o.item) else Nothing
    case Busy(item, task) => TaskTurn(c, s, item, task, o)
    case _ => Nothing
  }

  function TaskTurn(c: Config, s: State, item: Item, task: Task, o: Oracle): Turn {
    match task
    case Skipping => Asked(Key(item), None)
    case Fetching => Asked(Key(item), o.answer)
    case Answered(response) => if item.depth == 0 then Rescopes(response.finalHost) else Nothing
    case Scoping(links) => Opens(Expansion(item, s.scope, links, 0))
    case Expanding(e) => LinkTurn(c, s, item, e)
    case Pushing(_, child, stage) => if stage.Heaping? then Enqueues(child) else Nothing
    case Rejecting => Stops
    case _ => Nothing
  }

  function LinkTurn(c: Config, s: State, item: Item, e: Expansion): Turn {
    if e.next >= |e.links| || !c.InScope(e.host, e.links[e.next]) || c.fp(c.Norm(e.links[e.next])) in s.f.visited
    then Nothing
    else NewChild(Item(c.Norm(e.links[e.next]), item.depth + 1, Some(item.url), Score(item.depth + 1), 0))
  }

  predicate After(c: Config, s: State, turn: Turn, t: State) {
    && t.h.born == s.h.born + (if turn.NewChild? then {Key(turn.child)} else {})
    && t.f.visited == s.f.visited + (if turn.NewChild? then {c.fp(turn.child.url)} else {})
    && t.h.answers == s.h.answers + (if turn.Asked? then {(turn.key, turn.answer)} else {})
    && t.h.expanded == s.h.expanded + (if turn.Opens? then {turn.e} else {})
    && t.scope == (if turn.Rescopes? then turn.host else s.scope)
    && t.f.queue == (match turn
                     case Enqueues(child) => s.f.queue + multiset{child}
                     case Dequeues(item) => s.f.queue - multiset{item}
                     case _ => s.f.queue)
    && t.f.stopped == (s.f.stopped || turn.Stops?)
  }

  lemma PopAfter(c: Config, s: State, at: PopStage, o: Oracle)
    requires PopEnabled(s, at, o)
    ensures After(c, s, TurnOf(c, s, Pop(at), o), MovePop(s, at, o).1)
  {
    if !at.Polling? {
      var t := MovePop(s, at, o).1;
      assert t == s.(f := s.f.(permit := t.f.permit));
    }
  }

  lemma AdmitAfter(c: Config, s: State, item: Item, task: Task, o: Oracle)
    requires IsAdmission(task)
    ensures After(c, s, TaskTurn(c, s, item, task, o), MoveAdmit(c, s, item, task, o).1)
  {
  }

  lemma FetchAfter(c: Config, s: State, item: Item, task: Task, o: Oracle)
    requires IsRecording(task)
    ensures After(c, s, TaskTurn(c, s, item, task, o), MoveFetch(c, s, item, task, o).1)
  {
  }

  lemma LinkAfter(c: Config, s: State, item: Item, e: Expansion)
    ensures After(c, s, LinkTurn(c, s, item, e), MoveLink(c, s, item, e).1)
  {
  }

  lemma TaskAfter(c: Config, s: State, item: Item, task: Task, o: Oracle)
    requires TaskEnabled(c, s, item, task, o)
    ensures After(c, s, TaskTurn(c, s, item, task, o), MoveTask(c, s, item, task, o).1)
  {
    if task.Expanding? { LinkAfter(c, s, item, task.e); }
    else if task.Pushing? || IsPlain(task) { PlainAfter(c, s, item, task, o); }
    else if IsAdmission(task) { AdmitAfter(c, s, item, task, o); }
    else { FetchAfter(c, s, item, task, o); }
  }

  lemma PlainAfter(c: Config, s: State, item: Item, task: Task, o: Oracle)
    requires TaskEnabled(c, s, item, task, o) && (task.Pushing? || IsPlain(task))
    ensures After(c, s, TaskTurn(c, s, item, task, o), MoveTask(c, s, item, task, o).1)
  {
    if task.Pushing? { PushAfter(c, s, task.child, task.stage, o); }
  }

  lemma PushAfter(c: Config, s: State, child: Item, stage: Stage, o: Oracle)
    requires PushEnabled(s, stage, o)
    ensures After(c, s, if stage.Heaping? then Enqueues(child) else Nothing, PushEffect(c, s, child, stage, o))
  {
  }

  lemma MoveAfter(c: Config, s: State, w: nat, o: Oracle)
    requires Enabled(c, s, w, o)
    ensures After(c, s, TurnOf(c, s, s.ws[w], o), Move(c, s, w, o).1)
  {
    match s.ws[w]
    case Pop(at) => PopAfter(c, s, at, o);
    case Busy(item, task) => TaskAfter(c, s, item, task, o);
    case _ => LoopAfter(c, s, w, o);
  }

  lemma LoopAfter(c: Config, s: State, w: nat, o: Oracle)
    requires Enabled(c, s, w, o) && !s.ws[w].Pop? && !s.ws[w].Busy?
    ensures After(c, s, TurnOf(c, s, s.ws[w], o), Move(c, s, w, o).1)
  {
    if s.ws[w].Seeding? { PushAfter(c, s, s.ws[w].child, s.ws[w].stage, o); }
  }

  // ----- soundness is kept -----

  // A new URL is the seed, or a link of a page being expanded.
  ghost predicate FromLink(c: Config, site: Site, s: State, child: Item) {
    exists e :: e in s.h.expanded && child.depth == e.item.depth + 1 && Links(c, site, e.item.url, child.url)
  }

  ghost predicate TurnFine(c: Config, site: Site, s: State, turn: Turn) {
    match turn
    case NewChild(child) => Key(child) == (c.Norm(c.seed), 0) || FromLink(c, site, s, child)
    case Opens(e) => Opened(c, site, e) && e.next == 0 && Key(e.item) in s.h.born && s.scope == ScopeOf(c, site)
    case Rescopes(host) => host == ScopeOf(c, site)
    case Enqueues(child) => Key(child) in s.h.born
    case Asked(key, _) => key in s.h.born
    case _ => true
  }

  lemma LinkIsFine(c: Config, site: Site, s: State, item: Item, e: Expansion)
    requires ExpandedFine(c, site, s) && Fine(c, site, s, Busy(item, Expanding(e)))
    ensures TurnFine(c, site, s, LinkTurn(c, s, item, e))
  {
    if LinkTurn(c, s, item, e).NewChild? {
      var e0 := e.(next := 0);
      assert Opened(c, site, e0) && e0.links[e.next] == e.links[e.next];
    }
  }

  lemma TurnIsFine(c: Config, site: Site, s: State, w: nat, o: Oracle)
    requires Sound(c, site, s) && Enabled(c, s, w, o)
    ensures TurnFine(c, site, s, TurnOf(c, s, s.ws[w], o))
  {
    assert Fine(c, site, s, s.ws[w]);
    match s.ws[w]
    case Busy(item, task) =>
      if task.Expanding? { LinkIsFine(c, site, s, item, task.e); }
      else if task.Answered? && item.depth == 0 { assert Reach(c, site, item.url, 0); }
    case _ =>
  }

  // The parent of a linked URL is reachable in one link less.
  lemma LinkReaches(c: Config, site: Site, s: State, child: Item)
    requires BornFine(c, site, s) && ExpandedFine(c, site, s) && FromLink(c, site, s, child)
    ensures Reach(c, site, child.url, child.depth) && child.depth <= c.maxDepth && s.h.expanded != {}
  {
    var e :| e in s.h.expanded && child.depth == e.item.depth + 1 && Links(c, site, e.item.url, child.url);
    assert Opened(c, site, e) && Key(e.item) in s.h.born;
    assert Reach(c, site, e.item.url, e.item.depth);
  }

  lemma BornKept(c: Config, site: Site, s: State, turn: Turn, t: State)
    requires BornFine(c, site, s) && ExpandedFine(c, site, s) && TurnFine(c, site, s, turn) && After(c, s, turn, t)
    ensures BornFine(c, site, t)
  {
    VisitedKept(c, s, turn, t);
    if turn.NewChild? { ChildReached(c, site, s, turn); }
    BornReal(c, site, s, turn, t);
    QueueBorn(c, site, s, turn, t);
  }

  lemma BornReal(c: Config, site: Site, s: State, turn: Turn, t: State)
    requires BornFine(c, site, s) && ExpandedFine(c, site, s) && TurnFine(c, site, s, turn) && After(c, s, turn, t)
    requires turn.NewChild? ==> Reach(c, site, turn.child.url, turn.child.depth)
    ensures forall b :: b in t.h.born ==>
      Reach(c, site, b.0, b.1) && b.1 <= c.maxDepth && c.fp(b.0) in t.f.visited && (b.1 > 0 ==> t.h.expanded != {})
  {
    if turn.NewChild? && Key(turn.child) != (c.Norm(c.seed), 0) { LinkReaches(c, site, s, turn.child); }
  }

  lemma QueueBorn(c: Config, site: Site, s: State, turn: Turn, t: State)
    requires BornFine(c, site, s) && TurnFine(c, site, s, turn) && After(c, s, turn, t)
    ensures forall item :: item in t.f.queue ==> Key(item) in t.h.born
  {
  }

  lemma ChildReached(c: Config, site: Site, s: State, turn: Turn)
    requires BornFine(c, site, s) && ExpandedFine(c, site, s) && TurnFine(c, site, s, turn) && turn.NewChild?
    ensures Reach(c, site, turn.child.url, turn.child.depth)
  {
    if Key(turn.child) == (c.Norm(c.seed), 0) { assert Reach(c, site, c.Norm(c.seed), 0); }
    else { LinkReaches(c, site, s, turn.child); }
  }

  lemma VisitedKept(c: Config, s: State, turn: Turn, t: State)
    requires forall fp :: fp in s.f.visited ==> exists b :: b in s.h.born && c.fp(b.0) == fp
    requires After(c, s, turn, t)
    ensures forall fp :: fp in t.f.visited ==> exists b :: b in t.h.born && c.fp(b.0) == fp
  {
    forall fp | fp in t.f.visited ensures exists b :: b in t.h.born && c.fp(b.0) == fp {
      if fp in s.f.visited {
        var b :| b in s.h.born && c.fp(b.0) == fp;
        assert b in t.h.born;
      } else {
        assert Key(turn.child) in t.h.born;
      }
    }
  }

  lemma ExpandedKept(c: Config, site: Site, s: State, turn: Turn, t: State)
    requires ExpandedFine(c, site, s) && TurnFine(c, site, s, turn) && After(c, s, turn, t)
    requires forall page :: page in t.t.pages ==> (page.url, page.depth) in t.h.born
    ensures ExpandedFine(c, site, t)
  {
  }

  lemma PagesKept(c: Config, site: Site, s: State, w: nat, o: Oracle)
    requires Sound(c, site, s) && Enabled(c, s, w, o)
    ensures var t := Move(c, s, w, o).1;
      forall page :: page in t.t.pages ==> (page.url, page.depth) in t.h.born
  {
    assert Fine(c, site, s, s.ws[w]);
    MoveGrows(c, s, w, o);
    MovePages(c, s, w, o);
  }

  lemma MovePages(c: Config, s: State, w: nat, o: Oracle)
    requires Enabled(c, s, w, o)
    ensures var t := Move(c, s, w, o).1;
      t.t.pages == s.t.pages ||
      (s.ws[w].Busy? && s.ws[w].task.Recording? &&
       t.t.pages == s.t.pages + [PageRecord(s.ws[w].item.url, s.ws[w].item.depth, s.ws[w].task.links)])
  {
  }

  predicate Extends(s: State, t: State) {
    && s.h.born <= t.h.born && s.h.answers <= t.h.answers && s.h.expanded <= t.h.expanded
    && s.f.visited <= t.f.visited && (s.f.stopped ==> t.f.stopped)
  }

  lemma MoveGrows(c: Config, s: State, w: nat, o: Oracle)
    requires Enabled(c, s, w, o)
    ensures Extends(s, Move(c, s, w, o).1)
  {
    MoveAfter(c, s, w, o);
  }

  // Only the seed has depth 0, and below it the scope host is settled.
  ghost predicate Rooted(c: Config, site: Site, s: State, item: Item) {
    if item.depth == 0 then item.url == c.Norm(c.seed) else s.scope == ScopeOf(c, site)
  }

  lemma BornRooted(c: Config, site: Site, s: State, item: Item)
    requires BornFine(c, site, s) && ExpandedFine(c, site, s) && Key(item) in s.h.born
    ensures Rooted(c, site, s, item)
  {
    if item.depth == 0 { assert Reach(c, site, item.url, 0); }
  }

  lemma FetchFine(c: Config, site: Site, s: State, item: Item, task: Task, o: Oracle)
    requires TaskEnabled(c, s, item, task, o) && IsRecording(task) && Rooted(c, site, s, item) && Fine(c, site, s, Busy(item, task))
    requires Honest(MoveTask(c, s, item, task, o).1, site)
    ensures var (p, t) := MoveTask(c, s, item, task, o); Fine(c, site, t, p)
  {
    match task
    case Fetching => assert (Key(item), o.answer) in MoveTask(c, s, item, task, o).1.h.answers;
    case _ =>
  }

  lemma LinkFine(c: Config, site: Site, s: State, item: Item, e: Expansion)
    requires Fine(c, site, s, Busy(item, Expanding(e)))
    ensures var (p, t) := MoveLink(c, s, item, e); Fine(c, site, t, p)
  {
    assert e.(next := e.next + 1).(next := 0) == e.(next := 0);
  }

  lemma PushFine(c: Config, site: Site, s: State, item: Item, task: Task, o: Oracle)
    requires TaskEnabled(c, s, item, task, o) && task.Pushing? && Fine(c, site, s, Busy(item, task))
    ensures var (p, t) := MoveTask(c, s, item, task, o); Fine(c, site, t, p)
  {
  }

  lemma TaskFine(c: Config, site: Site, s: State, item: Item, task: Task, o: Oracle)
    requires TaskEnabled(c, s, item, task, o)
    requires Rooted(c, site, s, item) && Fine(c, site, s, Busy(item, task))
    requires Honest(MoveTask(c, s, item, task, o).1, site)
    ensures var (p, t) := MoveTask(c, s, item, task, o); Fine(c, site, t, p)
  {
    if task.Expanding? { LinkFine(c, site, s, item, task.e); }
    else if task.Pushing? { PushFine(c, site, s, item, task, o); }
    else if IsPlain(task) { PlainFine(c, site, s, item, task, o); }
    else if IsAdmission(task) { AdmitFine(c, site, s, item, task, o); }
    else { FetchFine(c, site, s, item, task, o); }
  }

  lemma PlainFine(c: Config, site: Site, s: State, item: Item, task: Task, o: Oracle)
    requires TaskEnabled(c, s, item, task, o) && IsPlain(task) && Fine(c, site, s, Busy(item, task))
    ensures var (p, t) := MoveTask(c, s, item, task, o); Fine(c, site, t, p)
  {
  }

  lemma AdmitFine(c: Config, site: Site, s: State, item: Item, task: Task, o: Oracle)
    requires TaskEnabled(c, s, item, task, o) && IsAdmission(task) && Fine(c, site, s, Busy(item, task))
    ensures var (p, t) := MoveTask(c, s, item, task, o); Fine(c, site, t, p)
  {
  }

  lemma MoveFine(c: Config, site: Site, s: State, w: nat, o: Oracle)
    requires Sound(c, site, s) && Enabled(c, s, w, o)
    requires Honest(Move(c, s, w, o).1, site)
    ensures var (p, t) := Move(c, s, w, o); Fine(c, site, t, p)
  {
    assert Fine(c, site, s, s.ws[w]);
    match s.ws[w]
    case Busy(item, task) =>
      BornRooted(c, site, s, item);
      TaskFine(c, site, s, item, task, o);
    case Pop(at) => PopFine(c, site, s, at, o);
    case _ => LoopFine(c, site, s, w, o);
  }

  lemma PopFine(c: Config, site: Site, s: State, at: PopStage, o: Oracle)
    requires PopEnabled(s, at, o) && forall item :: item in s.f.queue ==> Key(item) in s.h.born
    ensures var (p, t) := MovePop(s, at, o); Fine(c, site, t, p)
  {
  }

  lemma LoopFine(c: Config, site: Site, s: State, w: nat, o: Oracle)
    requires Enabled(c, s, w, o) && !s.ws[w].Pop? && !s.ws[w].Busy? && Fine(c, site, s, s.ws[w])
    ensures var (p, t) := Move(c, s, w, o); Fine(c, site, t, p)
  {
  }

  lemma SoundStep(c: Config, site: Site, s: State, w: nat, o: Oracle)
    requires Sound(c, site, s) && Enabled(c, s, w, o) && Honest(Step(c, s, w, o), site)
    ensures Sound(c, site, Step(c, s, w, o))
  {
    var (p, t) := Move(c, s, w, o);
    var turn := TurnOf(c, s, s.ws[w], o);
    MoveAfter(c, s, w, o);
    TurnIsFine(c, site, s, w, o);
    BornKept(c, site, s, turn, t);
    PagesKept(c, site, s, w, o);
    ExpandedKept(c, site, s, turn, t);
    MoveFine(c, site, s, w, o);
    OthersFine(c, site, s, w, o);
    MoveDisturbs(c, s, w, o);
    SoundAssembled(c, site, t, w, p);
  }

  // None of this looks at the other threads' phases.
  lemma SoundAssembled(c: Config, site: Site, t: State, w: nat, p: Phase)
    requires w < |t.ws| && BornFine(c, site, t) && ExpandedFine(c, site, t) && Fine(c, site, t, p)
    requires forall i :: 0 <= i < |t.ws| && i != w ==> Fine(c, site, t, t.ws[i])
    ensures Sound(c, site, t.(ws := t.ws[w := p]))
  {
    var s' := t.(ws := t.ws[w := p]);
    forall i | 0 <= i < |s'.ws| ensures Fine(c, site, s', s'.ws[i]) { FineInCrew(c, site, t, s'.ws, s'.ws[i]); }
  }

  lemma FineInCrew(c: Config, site: Site, t: State, ws: seq<Phase>, p: Phase)
    requires Fine(c, site, t, p)
    ensures Fine(c, site, t.(ws := ws), p)
  {
  }

  lemma OthersFine(c: Config, site: Site, s: State, w: nat, o: Oracle)
    requires Sound(c, site, s) && Enabled(c, s, w, o)
    ensures forall i :: 0 <= i < |s.ws| && i != w ==> Fine(c, site, Move(c, s, w, o).1, Move(c, s, w, o).1.ws[i])
  {
    var t := Move(c, s, w, o).1;
    MoveDisturbs(c, s, w, o);
    MoveAfter(c, s, w, o);
    TurnIsFine(c, site, s, w, o);
    forall i | 0 <= i < |s.ws| && i != w ensures Fine(c, site, t, t.ws[i]) {
      assert Fine(c, site, s, s.ws[i]);
      OtherFine(c, site, s, TurnOf(c, s, s.ws[w], o), t, s.ws[i], t.ws[i]);
    }
  }

  lemma OtherFine(c: Config, site: Site, s: State, turn: Turn, t: State, was: Phase, p: Phase)
    requires After(c, s, turn, t) && Fine(c, site, s, was) && (p == was || (was.Pop? && p.Pop?))
    requires turn.Rescopes? ==> turn.host == ScopeOf(c, site)
    ensures Fine(c, site, t, p)
  {
  }

  // ----- nothing is forgotten: what each thread still owes the crawl -----

  // The environment will be asked about this item, or the crawl stopped.
  predicate AsksLater(p: Phase, key: (Url, nat)) {
    (p.Busy? && Key(p.item) == key && (BeforeFetch(p.task) || p.task.Skipping? || p.task.Rejecting?)) ||
    (PushOf(p).Some? && Key(PushOf(p).value.0) == key && !PushOf(p).value.1.Notifying?)
  }

  predicate OpensLater(p: Phase, key: (Url, nat)) {
    p.Busy? && Key(p.item) == key && (p.task.Answered? || p.task.Scoping?)
  }

  predicate PushesLater(p: Phase, e: Expansion, k: nat) {
    p.Busy? && (p.task.Expanding? || p.task.Pushing? || p.task.Tallying?)
    && p.task.e.(next := 0) == e && p.task.e.next <= k
  }

  ghost predicate WillAsk(s: State, key: (Url, nat)) {
    exists i :: 0 <= i < |s.ws| && AsksLater(s.ws[i], key)
  }

  ghost predicate WillOpen(s: State, key: (Url, nat)) {
    exists i :: 0 <= i < |s.ws| && OpensLater(s.ws[i], key)
  }

  ghost predicate WillPush(s: State, e: Expansion, k: nat) {
    exists i :: 0 <= i < |s.ws| && PushesLater(s.ws[i], e, k)
  }

  ghost predicate QueuedKey(s: State, key: (Url, nat)) { exists item :: item in s.f.queue && Key(item) == key }

  ghost predicate Answers(s: State, key: (Url, nat)) { exists r :: (key, r) in s.h.answers }

  ghost predicate HasExpanded(s: State, key: (Url, nat)) {
    exists e :: e in s.h.expanded && Key(e.item) == key
  }

  predicate LinkSeen(c: Config, s: State, e: Expansion, k: nat)
    requires k < |e.links|
  {
    c.InScope(e.host, e.links[k]) ==> c.fp(c.Norm(e.links[k])) in s.f.visited
  }

  ghost predicate BornAsked(s: State) {
    forall key :: key in s.h.born ==> QueuedKey(s, key) || WillAsk(s, key) || Answers(s, key) || s.f.stopped
  }

  ghost predicate AnswersOpened(c: Config, s: State) {
    forall a :: a in s.h.answers && a.1.Some? && a.0.1 < c.maxDepth ==> WillOpen(s, a.0) || HasExpanded(s, a.0)
  }

  ghost predicate LinksPushed(c: Config, s: State) {
    forall e, k: nat :: e in s.h.expanded && k < |e.links| ==> WillPush(s, e, k) || LinkSeen(c, s, e, k)
  }

  ghost predicate Complete(c: Config, s: State) { BornAsked(s) && AnswersOpened(c, s) && LinksPushed(c, s) }

  // ----- one move hands its duties on -----

  lemma AsksPassed(c: Config, s: State, w: nat, o: Oracle, key: (Url, nat))
    requires Enabled(c, s, w, o) && AsksLater(s.ws[w], key)
    ensures var (p, t) := Move(c, s, w, o);
      AsksLater(p, key) || QueuedKey(t, key) || Answers(t, key) || t.f.stopped
  {
    MoveAfter(c, s, w, o);
    var t := Move(c, s, w, o).1;
    var turn := TurnOf(c, s, s.ws[w], o);
    if turn.Asked? { assert (turn.key, turn.answer) in t.h.answers; }
    if turn.Enqueues? { assert turn.child in t.f.queue; }
    AsksOrTurns(c, s, w, o, key);
  }

  lemma AsksOrTurns(c: Config, s: State, w: nat, o: Oracle, key: (Url, nat))
    requires Enabled(c, s, w, o) && AsksLater(s.ws[w], key)
    ensures AsksLater(Move(c, s, w, o).0, key) ||
      (match TurnOf(c, s, s.ws[w], o)
       case Asked(asked, _) => asked == key
       case Enqueues(child) => Key(child) == key
       case Stops => true
       case _ => false)
  {
  }

  lemma QueuePassed(c: Config, s: State, w: nat, o: Oracle, item: Item)
    requires Enabled(c, s, w, o) && item in s.f.queue
    ensures var (p, t) := Move(c, s, w, o); item in t.f.queue || AsksLater(p, Key(item))
  {
    MoveAfter(c, s, w, o);
  }

  lemma OpensPassed(c: Config, s: State, w: nat, o: Oracle, key: (Url, nat))
    requires Enabled(c, s, w, o) && OpensLater(s.ws[w], key) && key.1 < c.maxDepth
    ensures var (p, t) := Move(c, s, w, o); OpensLater(p, key) || HasExpanded(t, key)
  {
    MoveAfter(c, s, w, o);
    var turn := TurnOf(c, s, s.ws[w], o);
    if turn.Opens? { assert turn.e in Move(c, s, w, o).1.h.expanded; }
  }

  lemma PushesPassed(c: Config, s: State, w: nat, o: Oracle, e: Expansion, k: nat)
    requires Enabled(c, s, w, o) && PushesLater(s.ws[w], e, k) && k < |e.links|
    ensures var (p, t) := Move(c, s, w, o); PushesLater(p, e, k) || LinkSeen(c, t, e, k)
  {
    MoveAfter(c, s, w, o);
  }

  // A new duty lands on the thread that creates it.
  lemma DutyTaken(c: Config, s: State, w: nat, o: Oracle)
    requires Enabled(c, s, w, o)
    ensures var (p, t) := Move(c, s, w, o);
      match TurnOf(c, s, s.ws[w], o)
      case NewChild(child) => AsksLater(p, Key(child))
      case Asked(key, answer) => answer.Some? ==> OpensLater(p, key)
      case Opens(e) => e.next == 0 && forall k: nat :: PushesLater(p, e, k)
      case _ => true
  {
  }

  lemma OthersKeep(c: Config, s: State, w: nat, o: Oracle, i: nat)
    requires Enabled(c, s, w, o) && i < |s.ws| && i != w && !s.ws[i].Pop?
    ensures |Step(c, s, w, o).ws| == |s.ws| && Step(c, s, w, o).ws[i] == s.ws[i]
  {
    MoveDisturbs(c, s, w, o);
  }

  lemma BornAskedStep(c: Config, s: State, w: nat, o: Oracle)
    requires BornAsked(s) && Enabled(c, s, w, o)
    ensures BornAsked(Step(c, s, w, o))
  {
    var s' := Step(c, s, w, o);
    MoveAfter(c, s, w, o);
    DutyTaken(c, s, w, o);
    MoveDisturbs(c, s, w, o);
    forall key | key in s'.h.born
      ensures QueuedKey(s', key) || WillAsk(s', key) || Answers(s', key) || s'.f.stopped
    {
      if key !in s.h.born { assert AsksLater(s'.ws[w], key); }
      else { AskedStill(c, s, w, o, key); }
    }
  }

  lemma AskedStill(c: Config, s: State, w: nat, o: Oracle, key: (Url, nat))
    requires Enabled(c, s, w, o)
    requires QueuedKey(s, key) || WillAsk(s, key) || Answers(s, key) || s.f.stopped
    ensures var s' := Step(c, s, w, o); QueuedKey(s', key) || WillAsk(s', key) || Answers(s', key) || s'.f.stopped
  {
    var s' := Step(c, s, w, o);
    MoveAfter(c, s, w, o);
    MoveDisturbs(c, s, w, o);
    if Answers(s, key) {
      var r :| (key, r) in s.h.answers;
      assert (key, r) in s'.h.answers;
    } else if QueuedKey(s, key) {
      var item :| item in s.f.queue && Key(item) == key;
      QueuePassed(c, s, w, o, item);
      if item !in s'.f.queue { assert AsksLater(s'.ws[w], key); }
    } else if WillAsk(s, key) {
      var i :| 0 <= i < |s.ws| && AsksLater(s.ws[i], key);
      if i == w {
        AsksPassed(c, s, w, o, key);
        if AsksLater(s'.ws[w], key) { assert WillAsk(s', key); }
      } else {
        OthersKeep(c, s, w, o, i);
        assert AsksLater(s'.ws[i], key);
      }
    }
  }

  lemma AnswersOpenedStep(c: Config, s: State, w: nat, o: Oracle)
    requires AnswersOpened(c, s) && Enabled(c, s, w, o)
    ensures AnswersOpened(c, Step(c, s, w, o))
  {
    var s' := Step(c, s, w, o);
    MoveAfter(c, s, w, o);
    DutyTaken(c, s, w, o);
    MoveDisturbs(c, s, w, o);
    forall a | a in s'.h.answers && a.1.Some? && a.0.1 < c.maxDepth ensures WillOpen(s', a.0) || HasExpanded(s', a.0) {
      if a !in s.h.answers { assert OpensLater(s'.ws[w], a.0); }
      else { OpenedStill(c, s, w, o, a.0); }
    }
  }

  lemma OpenedStill(c: Config, s: State, w: nat, o: Oracle, key: (Url, nat))
    requires Enabled(c, s, w, o) && key.1 < c.maxDepth && (WillOpen(s, key) || HasExpanded(s, key))
    ensures WillOpen(Step(c, s, w, o), key) || HasExpanded(Step(c, s, w, o), key)
  {
    var s' := Step(c, s, w, o);
    MoveAfter(c, s, w, o);
    MoveDisturbs(c, s, w, o);
    if HasExpanded(s, key) {
      var e :| e in s.h.expanded && Key(e.item) == key;
      assert e in s'.h.expanded;
    } else {
      var i :| 0 <= i < |s.ws| && OpensLater(s.ws[i], key);
      if i == w {
        OpensPassed(c, s, w, o, key);
        if OpensLater(s'.ws[w], key) { assert WillOpen(s', key); }
      } else {
        OthersKeep(c, s, w, o, i);
        assert OpensLater(s'.ws[i], key);
      }
    }
  }

  lemma LinksPushedStep(c: Config, s: State, w: nat, o: Oracle)
    requires LinksPushed(c, s) && Enabled(c, s, w, o)
    ensures LinksPushed(c, Step(c, s, w, o))
  {
    var s' := Step(c, s, w, o);
    MoveAfter(c, s, w, o);
    DutyTaken(c, s, w, o);
    MoveDisturbs(c, s, w, o);
    forall e, k: nat | e in s'.h.expanded && k < |e.links| ensures WillPush(s', e, k) || LinkSeen(c, s', e, k) {
      if e !in s.h.expanded { assert PushesLater(s'.ws[w], e, k); }
      else { PushedStill(c, s, w, o, e, k); }
    }
  }

  lemma PushedStill(c: Config, s: State, w: nat, o: Oracle, e: Expansion, k: nat)
    requires Enabled(c, s, w, o) && k < |e.links| && (WillPush(s, e, k) || LinkSeen(c, s, e, k))
    ensures WillPush(Step(c, s, w, o), e, k) || LinkSeen(c, Step(c, s, w, o), e, k)
  {
    var s' := Step(c, s, w, o);
    MoveAfter(c, s, w, o);
    MoveDisturbs(c, s, w, o);
    if !LinkSeen(c, s, e, k) {
      var i :| 0 <= i < |s.ws| && PushesLater(s.ws[i], e, k);
      if i == w {
        PushesPassed(c, s, w, o, e, k);
        if PushesLater(s'.ws[w], e, k) { assert WillPush(s', e, k); }
      } else {
        OthersKeep(c, s, w, o, i);
        assert PushesLater(s'.ws[i], e, k);
      }
    }
  }

  // ----- whole runs of a fresh crawl -----

  ghost predicate FreshRun(c: Config, run: seq<State>) {
    IsRun(c, run) && exists n: nat :: n >= 1 && run[0] == Fresh(c, n)
  }

  lemma FreshCovers(c: Config, site: Site, n: nat)
    ensures Sound(c, site, Fresh(c, n)) && Complete(c, Fresh(c, n))
  {
    SpawnShape(n);
  }

  lemma {:induction false} CoversAlways(c: Config, site: Site, run: seq<State>)
    requires FreshRun(c, run) && Honest(Last(run), site)
    ensures Sound(c, site, Last(run)) && Complete(c, Last(run))
  {
    if |run| == 1 {
      var n: nat :| n >= 1 && run[0] == Fresh(c, n);
      FreshCovers(c, site, n);
    } else {
      var w, o := LastStep(c, run);
      var before := run[|run| - 2];
      MoveAfter(c, before, w, o);
      CoversAlways(c, site, run[..|run| - 1]);
      SoundStep(c, site, before, w, o);
      BornAskedStep(c, before, w, o);
      AnswersOpenedStep(c, before, w, o);
      LinksPushedStep(c, before, w, o);
    }
  }

  // ----- each fingerprint is claimed once -----

  ghost predicate BornOnce(c: Config, s: State) {
    && (forall b :: b in s.h.born ==> c.fp(b.0) in s.f.visited)
    && (forall a, b :: a in s.h.born && b in s.h.born && c.fp(a.0) == c.fp(b.0) ==> a == b)
  }

  lemma BornOnceStep(c: Config, s: State, w: nat, o: Oracle)
    requires BornOnce(c, s) && Enabled(c, s, w, o)
    ensures BornOnce(c, Step(c, s, w, o))
  {
    MoveAfter(c, s, w, o);
    ClaimsNew(c, s, s.ws[w], o);
    BornOnceKept(c, s, TurnOf(c, s, s.ws[w], o), Move(c, s, w, o).1);
  }

  lemma ClaimsNew(c: Config, s: State, p: Phase, o: Oracle)
    ensures var turn := TurnOf(c, s, p, o); turn.NewChild? ==> c.fp(turn.child.url) !in s.f.visited
  {
  }

  lemma BornOnceKept(c: Config, s: State, turn: Turn, t: State)
    requires BornOnce(c, s) && After(c, s, turn, t) && (turn.NewChild? ==> c.fp(turn.child.url) !in s.f.visited)
    ensures BornOnce(c, t)
  {
  }

  lemma {:induction false} BornOnceAlways(c: Config, run: seq<State>)
    requires FreshRun(c, run)
    ensures BornOnce(c, Last(run))
  {
    if |run| > 1 {
      var w, o := LastStep(c, run);
      BornOnceAlways(c, run[..|run| - 1]);
      BornOnceStep(c, run[|run| - 2], w, o);
    }
  }

  // Every item queued or in hand, and every page reported, sits on a path of in-scope
  // links exactly as long as its depth, in every state of every schedule.
  lemma DepthsAreReal(c: Config, site: Site, run: seq<State>)
    requires FreshRun(c, run) && Honest(Last(run), site)
    ensures forall item :: item in Last(run).f.queue ==>
      item.depth <= c.maxDepth && Reach(c, site, item.url, item.depth)
    ensures forall i :: 0 <= i < |Last(run).ws| && Last(run).ws[i].Busy? ==>
      Last(run).ws[i].item.depth <= c.maxDepth && Reach(c, site, Last(run).ws[i].item.url, Last(run).ws[i].item.depth)
    ensures forall page :: page in Last(run).t.pages ==>
      page.depth <= c.maxDepth && Reach(c, site, page.url, page.depth)
  {
    CoversAlways(c, site, run);
    forall i | 0 <= i < |Last(run).ws| && Last(run).ws[i].Busy? ensures Key(Last(run).ws[i].item) in Last(run).h.born {
      assert Fine(c, site, Last(run), Last(run).ws[i]);
    }
  }

  // The links of a page at `max_depth` are not pushed; it matters if one is new.
  ghost predicate CutShort(c: Config, site: Site, s: State) {
    exists a, to :: a in s.h.answers && a.1.Some? && a.0.1 == c.maxDepth
      && Links(c, site, a.0.0, to) && c.fp(to) !in s.f.visited
  }

  // A run that ended because nothing was left.
  ghost predicate DrainedRun(c: Config, site: Site, run: seq<State>) {
    FreshRun(c, run) && Finished(Last(run)) && !Last(run).f.stopped && Honest(Last(run), site)
  }

  lemma DrainedAnswers(c: Config, site: Site, run: seq<State>, key: (Url, nat))
    requires DrainedRun(c, site, run) && key in Last(run).h.born
    ensures (key, site(key.0)) in Last(run).h.answers
  {
    CoversAlways(c, site, run);
    DrainedQueue(c, run);
    NothingToAsk(Last(run), key);
    var r :| (key, r) in Last(run).h.answers;
    assert (key, r).1 == site(key.0);
  }

  lemma DrainedQueue(c: Config, run: seq<State>)
    requires Session(c, run) && Finished(Last(run)) && !Last(run).f.stopped
    ensures Last(run).f.queue == multiset{}
  {
    AlertAlways(c, run);
    CountZero(Looker, Last(run).ws);
  }

  lemma NothingToAsk(s: State, key: (Url, nat))
    requires Finished(s) && !s.f.stopped && s.f.queue == multiset{} && BornAsked(s) && key in s.h.born
    ensures Answers(s, key)
  {
    assert !WillAsk(s, key) && !QueuedKey(s, key);
  }

  // The URL itself was accepted, not only one with its fingerprint.
  ghost predicate Claimed(s: State, url: Url) { exists d: nat :: (url, d) in s.h.born }

  ghost predicate Covers(c: Config, site: Site, s: State) {
    forall url, d: nat :: Reach(c, site, url, d) ==> Claimed(s, url)
  }

  // Whatever has the fingerprint of a URL within reach is that URL.
  lemma VisitedIsClaimed(c: Config, site: Site, s: State, url: Url, n: nat)
    requires BornFine(c, site, s) && c.fp(url) in s.f.visited
    requires Distinct(c, site, n) && ReachWithin(c, site, url, n) && c.maxDepth <= n
    ensures exists k: nat :: k <= c.maxDepth && (url, k) in s.h.born
  {
    var b :| b in s.h.born && c.fp(b.0) == c.fp(url);
    assert Reach(c, site, b.0, b.1) && b.1 <= n && ReachWithin(c, site, b.0, n);
    assert b == (url, b.1);
  }

  lemma ReachVisited(c: Config, site: Site, run: seq<State>, from: Url, k: nat, url: Url)
    requires DrainedRun(c, site, run) && !CutShort(c, site, Last(run)) && k <= c.maxDepth
    requires (from, k) in Last(run).h.born && Links(c, site, from, url)
    ensures c.fp(url) in Last(run).f.visited && Reach(c, site, url, k + 1)
  {
    CoversAlways(c, site, run);
    assert Reach(c, site, (from, k).0, (from, k).1);
    ReachNext(c, site, from, url, k);
    DrainedAnswers(c, site, run, (from, k));
    if k < c.maxDepth { ExpandedLinks(c, site, run, (from, k), url); }
  }

  lemma ReachedIsClaimed(c: Config, site: Site, run: seq<State>, url: Url, n: nat)
    requires DrainedRun(c, site, run) && Distinct(c, site, c.maxDepth + 1) && n <= c.maxDepth + 1
    requires Reach(c, site, url, n) && c.fp(url) in Last(run).f.visited
    ensures exists k: nat :: k <= c.maxDepth && (url, k) in Last(run).h.born
  {
    CoversAlways(c, site, run);
    assert ReachWithin(c, site, url, c.maxDepth + 1);
    VisitedIsClaimed(c, site, Last(run), url, c.maxDepth + 1);
  }

  ghost predicate ClaimsClosed(c: Config, site: Site, s: State) {
    Claimed(s, c.Norm(c.seed)) && forall from, to :: Claimed(s, from) && Links(c, site, from, to) ==> Claimed(s, to)
  }

  lemma DrainedClosed(c: Config, site: Site, run: seq<State>)
    requires DrainedRun(c, site, run) && Distinct(c, site, c.maxDepth + 1) && !CutShort(c, site, Last(run))
    ensures ClaimsClosed(c, site, Last(run))
  {
    SeedVisited(c, site, run);
    ReachedIsClaimed(c, site, run, c.Norm(c.seed), 0);
    forall from, to | Claimed(Last(run), from) && Links(c, site, from, to) ensures Claimed(Last(run), to) {
      var k: nat :| (from, k) in Last(run).h.born;
      BornWithinDepth(c, site, run, from, k);
      ReachVisited(c, site, run, from, k, to);
      ReachedIsClaimed(c, site, run, to, k + 1);
    }
  }

  lemma BornWithinDepth(c: Config, site: Site, run: seq<State>, url: Url, k: nat)
    requires DrainedRun(c, site, run) && (url, k) in Last(run).h.born
    ensures k <= c.maxDepth
  {
    CoversAlways(c, site, run);
    assert (url, k).1 <= c.maxDepth;
  }

  lemma {:induction false} ReachClaimed(c: Config, site: Site, s: State, url: Url, d: nat)
    requires ClaimsClosed(c, site, s) && Reach(c, site, url, d)
    ensures Claimed(s, url)
    decreases d
  {
    if d > 0 {
      var from :| Reach(c, site, from, d - 1) && Links(c, site, from, url);
      ReachClaimed(c, site, s, from, d - 1);
    }
  }

  lemma SeedVisited(c: Config, site: Site, run: seq<State>)
    requires DrainedRun(c, site, run)
    ensures c.fp(c.Norm(c.seed)) in Last(run).f.visited
  {
    SeedPushed(c, run);
  }

  lemma ExpandedLinks(c: Config, site: Site, run: seq<State>, key: (Url, nat), to: Url)
    requires DrainedRun(c, site, run) && Links(c, site, key.0, to) && key.1 < c.maxDepth
    requires (key, site(key.0)) in Last(run).h.answers
    ensures c.fp(to) in Last(run).f.visited
  {
    var s := Last(run);
    CoversAlways(c, site, run);
    NothingOwed(c, s, key);
    var e :| e in s.h.expanded && Key(e.item) == key;
    assert Opened(c, site, e);
    var k: nat :| k < |e.links| && c.InScope(e.host, e.links[k]) && c.Norm(e.links[k]) == to;
    NoPushLeft(c, s, e, k);
  }

  lemma NothingOwed(c: Config, s: State, key: (Url, nat))
    requires Finished(s) && AnswersOpened(c, s) && key.1 < c.maxDepth
    requires exists r :: (key, r) in s.h.answers && r.Some?
    ensures HasExpanded(s, key)
  {
    assert !WillOpen(s, key);
  }

  lemma NoPushLeft(c: Config, s: State, e: Expansion, k: nat)
    requires Finished(s) && LinksPushed(c, s) && e in s.h.expanded && k < |e.links|
    ensures LinkSeen(c, s, e, k)
  {
    assert !WillPush(s, e, k);
  }

  // Main leaves Booted behind only with the seed in `visited`.
  lemma {:induction false} SeedPushed(c: Config, run: seq<State>)
    requires Session(c, run)
    ensures Crew(Last(run)) && (!Last(run).ws[0].Booting? ==> c.fp(c.Norm(c.seed)) in Last(run).f.visited)
  {
    AlertAlways(c, run);
    if |run| == 1 {
      var n: nat, d, seq0: nat, h :| n >= 1 && run[0] == Start(c, n, d, seq0, h);
      SpawnShape(n);
    } else {
      var w, o := LastStep(c, run);
      SeedPushed(c, run[..|run| - 1]);
      MoveAfter(c, run[|run| - 2], w, o);
      MoveDisturbs(c, run[|run| - 2], w, o);
    }
  }

  lemma CutLink(c: Config, site: Site, s: State) returns (to: Url)
    requires BornFine(c, site, s) && ExpandedFine(c, site, s) && CutShort(c, site, s)
    ensures Reach(c, site, to, c.maxDepth + 1) && c.fp(to) !in s.f.visited
  {
    var a;
    a, to :| a in s.h.answers && a.1.Some? && a.0.1 == c.maxDepth
      && Links(c, site, a.0.0, to) && c.fp(to) !in s.f.visited;
    assert a.0 in s.h.born;
    ReachNext(c, site, a.0.0, to, c.maxDepth);
  }

  lemma CutLosesOne(c: Config, site: Site, s: State)
    requires BornFine(c, site, s) && ExpandedFine(c, site, s) && CutShort(c, site, s)
    ensures !Covers(c, site, s) && !NoPathOf(c, site, c.maxDepth + 1)
  {
    var to := CutLink(c, site, s);
    if Claimed(s, to) { ClaimedVisited(c, site, s, to); }
  }

  lemma ClaimedVisited(c: Config, site: Site, s: State, url: Url)
    requires BornFine(c, site, s) && Claimed(s, url)
    ensures c.fp(url) in s.f.visited
  {
    var d: nat :| (url, d) in s.h.born;
    assert (url, d).0 == url;
  }

  lemma ReachNext(c: Config, site: Site, from: Url, to: Url, d: nat)
    requires Reach(c, site, from, d) && Links(c, site, from, to)
    ensures Reach(c, site, to, d + 1)
  {
  }

  // Full coverage leaves no room for two URLs with one fingerprint.
  lemma CoveredAreDistinct(c: Config, site: Site, s: State, n: nat)
    requires BornOnce(c, s) && Covers(c, site, s)
    ensures Distinct(c, site, n)
  {
    forall a, b | ReachWithin(c, site, a, n) && ReachWithin(c, site, b, n) && c.fp(a) == c.fp(b) ensures a == b {
      assert Claimed(s, a) && Claimed(s, b);
      var d: nat :| (a, d) in s.h.born;
      var e: nat :| (b, e) in s.h.born;
      assert (a, d) == (b, e);
    }
  }

  // A drained crawl visits nothing but what links reach. It visits all of it, whatever
  // the interleaving, exactly if no page at `max_depth` has a link that nothing else
  // visited and no two URLs it could meet share a fingerprint. The first cannot happen
  // on a site without a path of `max_depth` + 1 links.
  lemma DrainedCoverage(c: Config, site: Site, run: seq<State>)
    requires DrainedRun(c, site, run)
    ensures forall fp :: fp in Last(run).f.visited ==>
      exists url :: c.fp(url) == fp && ReachWithin(c, site, url, c.maxDepth) && Claimed(Last(run), url)
    ensures Covers(c, site, Last(run)) <==> !CutShort(c, site, Last(run)) && Distinct(c, site, c.maxDepth + 1)
    ensures NoPathOf(c, site, c.maxDepth + 1) ==> !CutShort(c, site, Last(run))
  {
    var s := Last(run);
    CoversAlways(c, site, run);
    BornOnceAlways(c, run);
    forall fp | fp in s.f.visited
      ensures exists url :: c.fp(url) == fp && ReachWithin(c, site, url, c.maxDepth) && Claimed(s, url)
    {
      var b :| b in s.h.born && c.fp(b.0) == fp;
      assert Reach(c, site, b.0, b.1) && (b.0, b.1) in s.h.born;
    }
    if CutShort(c, site, s) { CutLosesOne(c, site, s); }
    if Covers(c, site, s) { CoveredAreDistinct(c, site, s, c.maxDepth + 1); }
    if !CutShort(c, site, s) && Distinct(c, site, c.maxDepth + 1) {
      DrainedClosed(c, site, run);
      forall url, d: nat | Reach(c, site, url, d) ensures Claimed(s, url) { ReachClaimed(c, site, s, url, d); }
    }
  }

  // Two drained crawls of one site, with any numbers of workers and any schedules,
  // accept the same URLs.
  lemma ScheduleIndependence(c: Config, site: Site, run: seq<State>, other: seq<State>)
    requires Distinct(c, site, c.maxDepth + 1)
    requires DrainedRun(c, site, run) && !CutShort(c, site, Last(run))
    requires DrainedRun(c, site, other) && !CutShort(c, site, Last(other))
    ensures Last(run).f.visited == Last(other).f.visited
    ensures forall url :: Claimed(Last(run), url) <==> Claimed(Last(other), url)
  {
    SameClaims(c, site, run, other);
    SameClaims(c, site, other, run);
  }

  lemma SameClaims(c: Config, site: Site, run: seq<State>, other: seq<State>)
    requires Distinct(c, site, c.maxDepth + 1)
    requires DrainedRun(c, site, run) && DrainedRun(c, site, other) && !CutShort(c, site, Last(other))
    ensures Last(run).f.visited <= Last(other).f.visited
    ensures forall url :: Claimed(Last(run), url) ==> Claimed(Last(other), url)
  {
    CoversAlways(c, site, run);
    CoversAlways(c, site, other);
    DrainedClosed(c, site, other);
    forall url | Claimed(Last(run), url) ensures Claimed(Last(other), url) {
      var d: nat :| (url, d) in Last(run).h.born;
      assert Reach(c, site, (url, d).0, (url, d).1);
      ReachClaimed(c, site, Last(other), url, d);
    }
    forall fp | fp in Last(run).f.visited ensures fp in Last(other).f.visited {
      var b :| b in Last(run).h.born && c.fp(b.0) == fp;
      assert (b.0, b.1) in Last(run).h.born && Claimed(Last(other), b.0);
      var d: nat :| (b.0, d) in Last(other).h.born;
      assert c.fp((b.0, d).0) in Last(other).f.visited;
    }
  }
}
