// The crawl as a transition system: the main thread, N workers and everything
// they share (crates/engine/src/lib.rs, crates/frontier/src/frontier.rs).
//
// A state holds one phase per thread; thread 0 is the main thread, which pushes
// the seed before any worker runs. Every atomic operation, lock scope or SQL
// statement is one step. Whatever the code cannot see (clock, breaker, robots,
// responses, which waiter a notification wakes, a spurious CAS failure) is read
// from an arbitrary oracle.
module Protocol {
  import opened Prelude
  import opened Urls

  // Fingerprints are 64-bit.
  newtype Fp = f: int | 0 <= f < 0x1_0000_0000_0000_0000

  datatype Item = Item(url: Url, depth: nat, from: Option<Url>, priority: int, seqno: nat)

  // `DepthPriority`.
  function Score(depth: nat): int { 0 - depth }

  // `Ord for FrontierItem`: a does not rank below b.
  predicate Above(a: Item, b: Item) {
    a.priority > b.priority || (a.priority == b.priority && a.seqno <= b.seqno)
  }

  datatype Config = Config(
    maxDepth: nat, sameDomain: bool, maxUrls: Option<nat>, hasDeadline: bool,
    perHost: nat, rules: Rules, seed: Url, fp: Url -> Fp)
  {
    predicate Valid() { perHost >= 1 }

    function Norm(url: Url): Url { Normalize(url, rules) }

    predicate InScope(host: string, link: Url) { !sameDomain || link.host == host }
  }

  // ----- phases -----

  // Inside `try_push`, after `visited.insert` returned true: what comes next.
  datatype Stage = Numbering | MarkingSeen | Enqueuing | Counting | Heaping | Notifying

  // Inside `Frontier::pop`. `woken`: a broadcast reached the future since its creation.
  datatype PopStage =
    | Entering                    // about to create the Notified future
    | Registered(woken: bool)     // about to read `stopped`
    | Polling(woken: bool)        // about to pop the queue
    | Empty(woken: bool)          // found it empty, about to read `pending`
    | Awaiting(woken: bool)       // about to poll the future for the first time
    | Waiting                     // parked, not notified
    | Woken                       // parked, notified

  // A fetched page whose links are being pushed: the scope host read before the
  // loop, and how many links were looked at.
  datatype Expansion = Expansion(item: Item, host: string, links: seq<Url>, next: nat)

  // Why an item is being completed.
  datatype Reason = Skipped | Fetched | Dropped

  // What a worker is about to do with the item it popped.
  datatype Task =
    | Leasing                     // mark the row in-flight
    | Acquiring                   // take the global permit
    | Vetting                     // ask the circuit breaker
    | Robots
    | Skipping
    | Loading                     // load `fetched`
    | Reserving(current: int)     // compare-exchange
    | Rejecting                   // over budget: set `stopped`
    | RejectNotifying             // over budget: notify_waiters
    | Reserved                    // take the host permit
    | Fetching
    | Answered(response: Response)
    | Scoping(links: seq<Url>)    // read the scope host
    | Expanding(e: Expansion)
    | Pushing(e: Expansion, child: Item, stage: Stage)
    | Tallying(e: Expansion)      // count the pushed link
    | Recording(links: seq<Url>)  // push the page record
    | Releasing                   // fetch failed: give the slot back
    | Erring
    | Logging
    | Deleting(why: Reason)       // `complete`: delete the row
    | Decrementing(why: Reason)

  datatype Phase =
    | Booting                               // main: about to push the seed
    | Seeding(child: Item, stage: Stage)    // main: inside that try_push
    | Booted                                // main: workers are spawned
    | Top                                   // loop head: deadline and budget fast path
    | Halting                               // about to set `stopped` and leave
    | HaltNotifying
    | Pop(at: PopStage)
    | Busy(item: Item, task: Task)
    | Draining(item: Item, why: Reason)     // `pending` reached 0: about to notify_waiters
    | Exited(dropped: bool)

  datatype Response = Response(finalHost: string, links: seq<Url>)

  // ----- shared state -----

  datatype Frontier = Frontier(
    queue: multiset<Item>, visited: set<Fp>, pending: int, nextSeq: nat, permit: bool, stopped: bool)

  datatype PageRecord = PageRecord(url: Url, depth: nat, links: seq<Url>)

  datatype Stats = Stats(
    discovered: int, fetched: int, skipped: int, errors: int, pages: seq<PageRecord>, errorLog: seq<Url>)

  datatype Lease = Queued | Inflight

  datatype Row = Row(item: Item, lease: Lease)

  // The two SQLite tables.
  datatype Tables = Tables(seen: set<Fp>, rows: map<Fp, Row>)

  // History: never read by the code.
  //   dropped   items completed by the budget-reject path
  //   born      (url, depth) of everything `try_push` accepted
  //   answers   what the environment said about each item: a response, or nothing
  //   expanded  pages whose links were pushed
  //   done      fingerprints whose row was deleted
  //   lost      fingerprints a crash left in `seen` without a row
  datatype History = History(
    dropped: int, born: set<(Url, nat)>, answers: set<((Url, nat), Option<Response>)>,
    expanded: set<Expansion>, done: set<Fp>, lost: set<Fp>, crashes: nat)

  datatype State = State(
    ws: seq<Phase>, f: Frontier, t: Stats, d: Tables, scope: string, h: History)
  {
    function Workers(): int { |ws| - 1 }
  }

  function Key(item: Item): (Url, nat) { (item.url, item.depth) }

  // ----- notifications -----

  function WakeStage(at: PopStage): PopStage {
    match at
    case Entering => Entering
    case Registered(_) => Registered(true)
    case Polling(_) => Polling(true)
    case Empty(_) => Empty(true)
    case Awaiting(_) => Awaiting(true)
    case Waiting => Woken
    case Woken => Woken
  }

  function Wake(p: Phase): Phase {
    if p.Pop? then Pop(WakeStage(p.at)) else p
  }

  // `notify_waiters`: every Notified created before the call.
  function WakeAll(ws: seq<Phase>): (r: seq<Phase>)
    ensures |r| == |ws| && forall i :: 0 <= i < |ws| ==> r[i] == Wake(ws[i])
  {
    if ws == [] then [] else WakeAll(ws[..|ws| - 1]) + [Wake(ws[|ws| - 1])]
  }

  predicate SomeoneWaiting(ws: seq<Phase>) {
    exists i :: 0 <= i < |ws| && ws[i] == Pop(Waiting)
  }

  // ----- permits -----

  // Holders of the global semaphore, which has one permit per worker.
  predicate HoldsGlobal(p: Phase) {
    p.Draining? || (p.Busy? && !p.task.Leasing? && !p.task.Acquiring?)
  }

  // Holders of a host's semaphore.
  predicate HoldsHost(p: Phase, host: string) {
    match p
    case Busy(item, task) =>
      item.url.host == host &&
      (match task
       case Leasing => false case Acquiring => false case Vetting => false case Robots => false
       case Skipping => false case Loading => false case Reserving(_) => false case Reserved => false
       case Rejecting => false case RejectNotifying => false
       case Deleting(why) => why.Fetched? case Decrementing(why) => why.Fetched?
       case _ => true)
    case Draining(item, why) => item.url.host == host && why.Fetched?
    case _ => false
  }

  function GlobalHolders(ws: seq<Phase>): set<nat> {
    set i | 0 <= i < |ws| && HoldsGlobal(ws[i])
  }

  function HostHolders(ws: seq<Phase>, host: string): set<nat> {
    set i | 0 <= i < |ws| && HoldsHost(ws[i], host)
  }

  // The item inside `try_push`, if any, and where.
  function PushOf(p: Phase): Option<(Item, Stage)> {
    match p
    case Seeding(child, stage) => Some((child, stage))
    case Busy(_, task) => if task.Pushing? then Some((task.child, task.stage)) else None
    case _ => None
  }

  predicate InStage(p: Phase, stage: Stage) {
    PushOf(p).Some? && PushOf(p).value.1 == stage
  }

  // The store mutex covers mark_seen and enqueue together.
  predicate StoreFree(ws: seq<Phase>) {
    forall i :: 0 <= i < |ws| ==> !InStage(ws[i], Enqueuing)
  }

  // ----- steps -----

  // Every value a step may take from outside.
  //   flag    deadline passed / verdict is "go on" / CAS fails spuriously
  //   item    which of several equal maxima the heap returns
  //   pick    which parked waiter notify_one wakes
  //   answer  the fetch outcome
  datatype Oracle = Oracle(flag: bool, item: Item, pick: nat, answer: Option<Response>)

  predicate IsTop(queue: multiset<Item>, item: Item) {
    item in queue && forall other :: other in queue ==> Above(item, other)
  }

  predicate PushEnabled(s: State, stage: Stage, o: Oracle) {
    match stage
    case MarkingSeen => StoreFree(s.ws)
    case Notifying => SomeoneWaiting(s.ws) ==> o.pick < |s.ws| && s.ws[o.pick] == Pop(Waiting)
    case _ => true
  }

  predicate TaskEnabled(c: Config, s: State, item: Item, task: Task, o: Oracle) {
    match task
    case Leasing => StoreFree(s.ws)
    case Acquiring => |GlobalHolders(s.ws)| < s.Workers()
    case Reserved => |HostHolders(s.ws, item.url.host)| < c.perHost
    case Pushing(_, _, stage) => PushEnabled(s, stage, o)
    case Deleting(_) => StoreFree(s.ws)
    case _ => true
  }

  predicate PopEnabled(s: State, at: PopStage, o: Oracle) {
    match at
    case Polling(_) => s.f.queue != multiset{} ==> IsTop(s.f.queue, o.item)
    case Waiting => false
    case _ => true
  }

  predicate Enabled(c: Config, s: State, w: nat, o: Oracle) {
    w < |s.ws| &&
    match s.ws[w]
    case Booting => true
    case Seeding(_, stage) => PushEnabled(s, stage, o)
    case Booted => false
    case Top => s.ws[0].Booted?
    case Halting => true
    case HaltNotifying => true
    case Pop(at) => PopEnabled(s, at, o)
    case Busy(item, task) => TaskEnabled(c, s, item, task, o)
    case Draining(_, _) => true
    case Exited(_) => false
  }

  function AfterComplete(why: Reason): Phase {
    if why.Dropped? then Exited(true) else Top
  }

  // `visited.insert` succeeded.
  function Claim(c: Config, s: State, child: Item): State {
    s.(f := s.f.(visited := s.f.visited + {c.fp(child.url)}),
       h := s.h.(born := s.h.born + {Key(child)}))
  }

  // What one stage of `try_push` does to everything but the pushing thread.
  function PushEffect(c: Config, s: State, child: Item, stage: Stage, o: Oracle): State
    requires PushEnabled(s, stage, o)
  {
    match stage
    case Numbering => s.(f := s.f.(nextSeq := s.f.nextSeq + 1))
    case MarkingSeen => s.(d := s.d.(seen := s.d.seen + {c.fp(child.url)}))
    case Enqueuing => s.(d := s.d.(rows := s.d.rows[c.fp(child.url) := Row(child, Queued)]))
    case Counting => s.(f := s.f.(pending := s.f.pending + 1))
    case Heaping => s.(f := s.f.(queue := s.f.queue + multiset{child}))
    case Notifying =>
      if SomeoneWaiting(s.ws) then s.(ws := s.ws[o.pick := Pop(Woken)]) else s.(f := s.f.(permit := true))
  }

  // The item and stage after it; no stage is left after Notifying.
  function PushNext(s: State, child: Item, stage: Stage): (Item, Option<Stage>) {
    match stage
    case Numbering => (child.(seqno := s.f.nextSeq), Some(MarkingSeen))
    case MarkingSeen => (child, Some(Enqueuing))
    case Enqueuing => (child, Some(Counting))
    case Counting => (child, Some(Heaping))
    case Heaping => (child, Some(Notifying))
    case Notifying => (child, None)
  }

  // One step of thread w: the phase it moves to, and the state around it.
  function Step(c: Config, s: State, w: nat, o: Oracle): State
    requires Enabled(c, s, w, o)
  {
    var (p, t) := Move(c, s, w, o);
    t.(ws := t.ws[w := p])
  }

  function Move(c: Config, s: State, w: nat, o: Oracle): (r: (Phase, State))
    requires Enabled(c, s, w, o)
    ensures |r.1.ws| == |s.ws|
  {
    match s.ws[w]
    case Booting =>
      // `try_push(seed, 0, None)`
      var url := c.Norm(c.seed);
      if c.fp(url) in s.f.visited then (Booted, s)
      else
        var child := Item(url, 0, None, Score(0), 0);
        (Seeding(child, Numbering), Claim(c, s, child))
    case Seeding(child, stage) =>
      var (next, left) := PushNext(s, child, stage);
      (if left.Some? then Seeding(next, left.value) else Booted, PushEffect(c, s, child, stage, o))
    case Top =>
      (if (c.hasDeadline && o.flag) || (c.maxUrls.Some? && s.t.fetched >= c.maxUrls.value) then Halting
       else Pop(Entering), s)
    case Halting => (HaltNotifying, s.(f := s.f.(stopped := true)))
    case HaltNotifying => (Exited(false), s.(ws := WakeAll(s.ws)))
    case Pop(at) => MovePop(s, at, o)
    case Busy(item, task) => MoveTask(c, s, item, task, o)
    case Draining(_, why) => (AfterComplete(why), s.(ws := WakeAll(s.ws)))
    case _ => (s.ws[w], s)
  }

  // `Frontier::pop`.
  function MovePop(s: State, at: PopStage, o: Oracle): (r: (Phase, State))
    requires PopEnabled(s, at, o)
    ensures r.1.ws == s.ws
  {
    match at
    case Entering => (Pop(Registered(false)), s)
    case Registered(woken) => (if s.f.stopped then Exited(false) else Pop(Polling(woken)), s)
    case Polling(woken) =>
      if s.f.queue == multiset{} then (Pop(Empty(woken)), s)
      else (Busy(o.item, Leasing), s.(f := s.f.(queue := s.f.queue - multiset{o.item})))
    case Empty(woken) => (if s.f.pending == 0 then Exited(false) else Pop(Awaiting(woken)), s)
    case Awaiting(woken) =>
      // A future that a broadcast already woke may or may not also take a stored permit.
      if woken then (Pop(Entering), s.(f := s.f.(permit := s.f.permit && o.flag)))
      else if s.f.permit then (Pop(Entering), s.(f := s.f.(permit := false)))
      else (Pop(Waiting), s)
    case Waiting => (Pop(Waiting), s)
    case Woken => (Pop(Entering), s)
  }

  function MoveTask(c: Config, s: State, item: Item, task: Task, o: Oracle): (r: (Phase, State))
    requires TaskEnabled(c, s, item, task, o)
    ensures |r.1.ws| == |s.ws|
  {
    match task
    case Expanding(e) => MoveLink(c, s, item, e)
    case Pushing(e, child, stage) =>
      var (next, left) := PushNext(s, child, stage);
      (Busy(item, if left.Some? then Pushing(e, next, left.value) else Tallying(e)),
       PushEffect(c, s, child, stage, o))
    case Tallying(e) => (Busy(item, Expanding(e)), s.(t := s.t.(discovered := s.t.discovered + 1)))
    case Rejecting => (Busy(item, RejectNotifying), s.(f := s.f.(stopped := true)))
    case RejectNotifying => (Busy(item, Deleting(Dropped)), s.(ws := WakeAll(s.ws)))
    case Deleting(why) =>
      var fp := c.fp(item.url);
      (Busy(item, Decrementing(why)),
       s.(d := s.d.(rows := s.d.rows - {fp}), h := s.h.(done := s.h.done + {fp})))
    case Decrementing(why) =>
      (if s.f.pending == 1 then Draining(item, why) else AfterComplete(why),
       s.(f := s.f.(pending := s.f.pending - 1)))
    case Fetching => MoveFetch(c, s, item, task, o)
    case Answered(_) => MoveFetch(c, s, item, task, o)
    case Scoping(_) => MoveFetch(c, s, item, task, o)
    case Recording(_) => MoveFetch(c, s, item, task, o)
    case Releasing => MoveFetch(c, s, item, task, o)
    case Erring => MoveFetch(c, s, item, task, o)
    case Logging => MoveFetch(c, s, item, task, o)
    case _ => MoveAdmit(c, s, item, task, o)
  }

  // From the lease to the fetch: permits, verdicts, the budget.
  function MoveAdmit(c: Config, s: State, item: Item, task: Task, o: Oracle): (r: (Phase, State))
    ensures r.1.ws == s.ws
  {
    match task
    case Leasing =>
      var fp := c.fp(item.url);
      (Busy(item, Acquiring),
       if fp in s.d.rows then s.(d := s.d.(rows := s.d.rows[fp := s.d.rows[fp].(lease := Inflight)])) else s)
    case Acquiring => (Busy(item, Vetting), s)
    case Vetting => (Busy(item, if o.flag then Robots else Skipping), s)
    case Robots => (Busy(item, if !o.flag then Skipping else if c.maxUrls.Some? then Loading else Reserved), s)
    case Skipping =>
      (Busy(item, Deleting(Skipped)),
       s.(t := s.t.(skipped := s.t.skipped + 1), h := s.h.(answers := s.h.answers + {(Key(item), None)})))
    case Loading => (Busy(item, Reserving(s.t.fetched)), s)
    case Reserving(current) =>
      if c.maxUrls.Some? && current >= c.maxUrls.value then
        (Busy(item, Rejecting), s.(h := s.h.(dropped := s.h.dropped + 1)))
      else if s.t.fetched == current && !o.flag then
        (Busy(item, Reserved), s.(t := s.t.(fetched := s.t.fetched + 1)))
      else (Busy(item, Reserving(s.t.fetched)), s)
    case Reserved => (Busy(item, Fetching), s)
    case _ => (Busy(item, task), s)
  }

  // The response, the scope host and the result records.
  function MoveFetch(c: Config, s: State, item: Item, task: Task, o: Oracle): (r: (Phase, State))
    ensures r.1.ws == s.ws
  {
    match task
    case Fetching =>
      (Busy(item,
         if o.answer.Some? then Answered(o.answer.value) else if c.maxUrls.Some? then Releasing else Erring),
       s.(h := s.h.(answers := s.h.answers + {(Key(item), o.answer)})))
    case Answered(response) =>
      (Busy(item, if item.depth < c.maxDepth then Scoping(response.links) else Recording(response.links)),
       if item.depth == 0 then s.(scope := response.finalHost) else s)
    case Scoping(links) =>
      var e := Expansion(item, s.scope, links, 0);
      (Busy(item, Expanding(e)), s.(h := s.h.(expanded := s.h.expanded + {e})))
    case Recording(links) =>
      (Busy(item, Deleting(Fetched)),
       s.(t := s.t.(pages := s.t.pages + [PageRecord(item.url, item.depth, links)])))
    case Releasing => (Busy(item, Erring), s.(t := s.t.(fetched := s.t.fetched - 1)))
    case Erring => (Busy(item, Logging), s.(t := s.t.(errors := s.t.errors + 1)))
    case Logging => (Busy(item, Deleting(Fetched)), s.(t := s.t.(errorLog := s.t.errorLog + [item.url])))
    case _ => (Busy(item, task), s)
  }

  // One link: out of scope, a duplicate, or claimed.
  function MoveLink(c: Config, s: State, item: Item, e: Expansion): (r: (Phase, State))
    ensures r.1.ws == s.ws
  {
    if e.next >= |e.links| then (Busy(item, Recording(e.links)), s)
    else
      var link := e.links[e.next];
      var url := c.Norm(link);
      var e' := e.(next := e.next + 1);
      if !c.InScope(e.host, link) || c.fp(url) in s.f.visited then (Busy(item, Expanding(e')), s)
      else
        var child := Item(url, item.depth + 1, Some(item.url), Score(item.depth + 1), 0);
        (Busy(item, Pushing(e', child, Numbering)), Claim(c, s, child))
  }

  // ----- runs -----

  ghost predicate Next(c: Config, s: State, s': State) {
    exists w: nat, o: Oracle :: Enabled(c, s, w, o) && s' == Step(c, s, w, o)
  }

  function Spawn(n: nat): seq<Phase> {
    if n == 0 then [Booting] else Spawn(n - 1) + [Top]
  }

  // A process start on what `load` returned: no session state survives but the tables.
  function Start(c: Config, n: nat, d: Tables, seq0: nat, h: History): State {
    var queue := multiset(set fp | fp in d.rows :: d.rows[fp].item);
    State(Spawn(n), Frontier(queue, d.seen, |queue|, seq0, false, false),
          Stats(0, 0, 0, 0, [], []), d, c.seed.host, h)
  }

  // A new store, or none at all: without a store nothing reads the tables.
  function Fresh(c: Config, n: nat): State {
    Start(c, n, Tables({}, map[]), 0, History(0, {}, {}, {}, {}, {}, 0))
  }

  predicate Finished(s: State) {
    |s.ws| > 0 && s.ws[0].Booted? && forall i :: 1 <= i < |s.ws| ==> s.ws[i].Exited?
  }
}
