// Weighted head counts over the phases of all threads. Every counter of the
// crawl is tied to one of them, and a step changes each by the weight of the
// phase it leaves and the weight of the phase it enters.
module Census {
  import opened Prelude
  import opened Protocol

  datatype Kind =
    | Owes            // pending units this thread still has to give back
    | Unaware         // read `stopped` as false and was not woken since
    | Sleepy          // read `pending` as non-zero and was not woken since
    | Stopper         // about to notify after setting `stopped`
    | Drainer         // about to notify after bringing `pending` to 0
    | Looker          // will look at the queue, or stop the crawl, before it can park
    | AfterStop       // only reached once `stopped` is set
    | Reservation     // holds a budget slot that is not a page yet
    | Seeded          // main has put the seed in the queue
    | Untallied       // pushed a link that `discovered` does not count yet
    | Unsettled       // holds an item with no outcome counted
    | Dropper         // took the budget-reject path
    | Logger          // error counted, not yet in the list
    | Skipper         // refused an item, not counted yet
    | Carrier         // got a page, not recorded yet
    | Failer          // got no page, not counted yet
    | Unfetched       // holds or is pushing an item not fetched yet
    | Labour          // steps left on the items in hand
    | Stale(fetched: int)  // compare-exchange bound to fail
    | Token           // undelivered wake-ups
    | Patience        // steps left before parking

  const QUEUED: nat := 18   // labour of a queued item

  // ----- weights inside `pop` -----

  predicate ReadPending(at: PopStage) {
    match at case Awaiting(woken) => !woken case Waiting => true case _ => false
  }

  predicate FoundEmpty(at: PopStage) {
    match at case Empty(woken) => !woken case _ => ReadPending(at)
  }

  predicate ReadStopped(at: PopStage) {
    match at case Polling(woken) => !woken case _ => FoundEmpty(at)
  }

  predicate WakePending(at: PopStage) {
    match at
    case Registered(woken) => woken case Polling(woken) => woken case Empty(woken) => woken
    case Awaiting(woken) => woken case Woken => true case _ => false
  }

  function PatienceOf(at: PopStage): nat {
    match at
    case Entering => 6 case Registered(_) => 5 case Polling(_) => 4 case Empty(_) => 3 case Awaiting(_) => 2
    case Waiting => 1 case Woken => 0
  }

  // ----- weights of a task -----

  // The environment has not been asked for its response yet.
  predicate BeforeFetch(task: Task) {
    match task
    case Leasing => true case Acquiring => true case Vetting => true case Robots => true case Loading => true
    case Reserving(_) => true case Reserved => true case Fetching => true case _ => false
  }

  // Tasks of one shared-memory operation each.
  predicate IsPlain(task: Task) {
    task.Tallying? || task.Rejecting? || task.RejectNotifying? || task.Deleting? || task.Decrementing?
  }

  predicate IsAdmission(task: Task) { (BeforeFetch(task) && !task.Fetching?) || task.Skipping? }

  predicate IsRecording(task: Task) {
    task.Fetching? || task.Answered? || task.Scoping? || task.Recording? || task.Releasing? || task.Erring?
    || task.Logging?
  }

  // The page's links are being pushed, or soon will be.
  predicate HasPage(task: Task) {
    match task
    case Answered(_) => true case Scoping(_) => true case Expanding(_) => true case Pushing(_, _, _) => true
    case Tallying(_) => true case Recording(_) => true case _ => false
  }

  // Took the budget-reject path.
  predicate Rejected(task: Task) {
    match task
    case Rejecting => true case RejectNotifying => true
    case Deleting(why) => why.Dropped? case Decrementing(why) => why.Dropped? case _ => false
  }

  predicate BeforeHeap(stage: Stage) { !stage.Notifying? }

  function StageLabour(stage: Stage): nat {
    match stage
    case Numbering => QUEUED + 7 case MarkingSeen => QUEUED + 6 case Enqueuing => QUEUED + 5
    case Counting => QUEUED + 4 case Heaping => QUEUED + 3 case Notifying => 2
  }

  function LinksLeft(e: Expansion): nat { if e.next < |e.links| then |e.links| - e.next else 0 }

  function TaskLabour(task: Task): nat {
    match task
    case Leasing => 17 case Acquiring => 16 case Vetting => 15 case Robots => 14 case Skipping => 7
    case Loading => 13 case Reserving(_) => 12 case Rejecting => 9 case RejectNotifying => 8
    case Reserved => 11 case Fetching => 10
    case Answered(response) => 10 + |response.links| case Scoping(links) => 9 + |links|
    case Expanding(e) => 8 + LinksLeft(e)
    case Pushing(e, _, stage) => 8 + LinksLeft(e) + StageLabour(stage)
    case Tallying(e) => 9 + LinksLeft(e)
    case Recording(_) => 7 case Releasing => 9 case Erring => 8 case Logging => 7
    case Deleting(_) => 6 case Decrementing(_) => 5
  }

  // ----- weights of a phase -----

  predicate Inside(p: Phase, stage: Stage) {
    (p.Seeding? && p.stage == stage) || (p.Busy? && p.task.Pushing? && p.task.stage == stage)
  }

  function Debt(p: Phase): nat { Bit(p.Busy?) + Bit(Inside(p, Heaping)) }

  predicate IsUnaware(p: Phase) { p.Pop? && ReadStopped(p.at) }

  predicate IsSleepy(p: Phase) { p.Pop? && ReadPending(p.at) }

  predicate IsStopper(p: Phase) { p.HaltNotifying? || (p.Busy? && p.task.RejectNotifying?) }

  predicate IsLooker(p: Phase) { !p.Booted? && !p.Exited? && !(p.Pop? && FoundEmpty(p.at)) }

  predicate IsDropper(p: Phase) {
    (p.Busy? && Rejected(p.task)) || (p.Draining? && p.why.Dropped?) || (p.Exited? && p.dropped)
  }

  predicate IsAfterStop(p: Phase) {
    p.HaltNotifying? || (IsDropper(p) && !(p.Busy? && p.task.Rejecting?))
  }

  predicate IsReservation(p: Phase) {
    p.Busy? && (HasPage(p.task) || p.task.Reserved? || p.task.Fetching? || p.task.Releasing?)
  }

  predicate IsSeeded(p: Phase) { p.Booted? || (p.Seeding? && p.stage.Notifying?) }

  predicate IsUntallied(p: Phase) {
    p.Busy? && (p.task.Tallying? || (p.task.Pushing? && !BeforeHeap(p.task.stage)))
  }

  predicate IsUnsettled(p: Phase) {
    p.Busy? && (BeforeFetch(p.task) || HasPage(p.task) || p.task.Skipping? || p.task.Releasing? || p.task.Erring?)
  }

  predicate IsUnfetched(p: Phase) {
    (p.Seeding? && BeforeHeap(p.stage)) ||
    (p.Busy? && (BeforeFetch(p.task) || (p.task.Pushing? && BeforeHeap(p.task.stage))))
  }

  function LabourOf(p: Phase): nat {
    match p
    case Booting => 1 case Seeding(_, stage) => StageLabour(stage) case Top => 3 case Halting => 2
    case HaltNotifying => 1 case Busy(_, task) => TaskLabour(task) case Draining(_, _) => 4 case _ => 0
  }

  predicate IsStale(p: Phase, fetched: int) { p.Busy? && p.task.Reserving? && p.task.current != fetched }

  predicate IsToken(p: Phase) { p.Pop? && WakePending(p.at) }

  function PatienceIn(p: Phase): nat { if p.Pop? then PatienceOf(p.at) else 0 }

  function Weight(k: Kind, p: Phase): nat {
    match k
    case Owes => Debt(p)
    case Unaware => Bit(IsUnaware(p))
    case Sleepy => Bit(IsSleepy(p))
    case Stopper => Bit(IsStopper(p))
    case Drainer => Bit(p.Draining?)
    case Looker => Bit(IsLooker(p))
    case AfterStop => Bit(IsAfterStop(p))
    case Reservation => Bit(IsReservation(p))
    case Seeded => Bit(IsSeeded(p))
    case Untallied => Bit(IsUntallied(p))
    case Unsettled => Bit(IsUnsettled(p))
    case Dropper => Bit(IsDropper(p))
    case Logger => Bit(p.Busy? && p.task.Logging?)
    case Skipper => Bit(p.Busy? && p.task.Skipping?)
    case Carrier => Bit(p.Busy? && HasPage(p.task))
    case Failer => Bit(p.Busy? && (p.task.Releasing? || p.task.Erring?))
    case Unfetched => Bit(IsUnfetched(p))
    case Labour => LabourOf(p)
    case Stale(fetched) => Bit(IsStale(p, fetched))
    case Token => Bit(IsToken(p))
    case Patience => PatienceIn(p)
  }

  function Count(k: Kind, ws: seq<Phase>): nat {
    if ws == [] then 0 else Count(k, ws[..|ws| - 1]) + Weight(k, ws[|ws| - 1])
  }

  lemma {:induction false} CountUpdate(k: Kind, ws: seq<Phase>, w: nat, p: Phase)
    requires w < |ws|
    ensures Count(k, ws[w := p]) == Count(k, ws) - Weight(k, ws[w]) + Weight(k, p)
  {
    var n := |ws| - 1;
    if w < n {
      CountUpdate(k, ws[..n], w, p);
      assert ws[w := p][..n] == ws[..n][w := p];
    } else {
      assert ws[w := p][..n] == ws[..n];
    }
  }

  // Kinds that a broadcast leaves alone, thread by thread.
  predicate WakeNeutral(k: Kind) {
    k.Owes? || k.Stopper? || k.Drainer? || k.AfterStop? || k.Reservation? || k.Seeded? || k.Untallied? || k.Unsettled?
    || k.Dropper? || k.Logger? || k.Skipper? || k.Carrier? || k.Failer? || k.Unfetched? || k.Labour? || k.Stale?
  }

  // Kinds that a broadcast empties.
  predicate WakeCleared(k: Kind) { k.Unaware? || k.Sleepy? }

  lemma WeightWake(k: Kind, p: Phase)
    ensures WakeNeutral(k) ==> Weight(k, Wake(p)) == Weight(k, p)
    ensures WakeCleared(k) ==> Weight(k, Wake(p)) == 0
    ensures k.Looker? ==> Weight(k, Wake(p)) >= Weight(k, p)
  {
  }

  lemma {:induction false} CountWakeAll(k: Kind, ws: seq<Phase>)
    ensures WakeNeutral(k) ==> Count(k, WakeAll(ws)) == Count(k, ws)
    ensures WakeCleared(k) ==> Count(k, WakeAll(ws)) == 0
    ensures k.Looker? ==> Count(k, WakeAll(ws)) >= Count(k, ws)
  {
    if ws != [] {
      var n := |ws| - 1;
      CountWakeAll(k, ws[..n]);
      WeightWake(k, ws[n]);
      assert WakeAll(ws)[..n] == WakeAll(ws[..n]);
    }
  }

  lemma {:induction false} CountWitness(k: Kind, ws: seq<Phase>) returns (i: nat)
    requires Count(k, ws) > 0
    ensures i < |ws| && Weight(k, ws[i]) > 0
  {
    i := |ws| - 1;
    if Weight(k, ws[i]) == 0 { i := CountWitness(k, ws[..i]); }
  }

  lemma {:induction false} CountAtLeast(k: Kind, ws: seq<Phase>, i: nat)
    requires i < |ws|
    ensures Count(k, ws) >= Weight(k, ws[i])
  {
    if i < |ws| - 1 { CountAtLeast(k, ws[..|ws| - 1], i); }
  }

  lemma {:induction false} CountZero(k: Kind, ws: seq<Phase>)
    requires forall i :: 0 <= i < |ws| ==> Weight(k, ws[i]) == 0
    ensures Count(k, ws) == 0
  {
    if ws != [] { CountZero(k, ws[..|ws| - 1]); }
  }

  // Thread 0 never counts, so these are at most one per worker.
  lemma {:induction false} CountAtMostWorkers(k: Kind, ws: seq<Phase>)
    requires |ws| > 0 && Weight(k, ws[0]) == 0
    requires forall i :: 0 <= i < |ws| ==> Weight(k, ws[i]) <= 1
    ensures Count(k, ws) <= |ws| - 1
  {
    if |ws| > 1 { CountAtMostWorkers(k, ws[..|ws| - 1]); }
    else { assert ws[..0] == []; }
  }

  lemma {:induction false} CountOnlyFirst(k: Kind, ws: seq<Phase>)
    requires |ws| > 0
    requires forall i :: 1 <= i < |ws| ==> Weight(k, ws[i]) == 0
    ensures Count(k, ws) == Weight(k, ws[0])
  {
    if |ws| > 1 { CountOnlyFirst(k, ws[..|ws| - 1]); }
    else { assert ws[..0] == []; }
  }

  lemma {:induction false} SpawnShape(n: nat)
    ensures |Spawn(n)| == n + 1 && Spawn(n)[0] == Booting
    ensures forall i :: 1 <= i <= n ==> Spawn(n)[i] == Top
  {
    if n > 0 { SpawnShape(n - 1); }
  }

  // ----- counting after a step -----

  // What a move may do to the other threads: nothing, a broadcast, or one wake-up.
  predicate Disturbed(ws: seq<Phase>, tws: seq<Phase>, w: nat, pick: nat) {
    w < |ws| &&
    (tws == ws || (!ws[w].Pop? && tws == WakeAll(ws)) || WokeOne(ws, tws, w, pick))
  }

  predicate WokeOne(ws: seq<Phase>, tws: seq<Phase>, w: nat, pick: nat) {
    pick < |ws| && pick != w && ws[pick] == Pop(Waiting) && tws == ws[pick := Pop(Woken)]
  }

  lemma Recount(k: Kind, ws: seq<Phase>, tws: seq<Phase>, w: nat, pick: nat, p: Phase)
    requires Disturbed(ws, tws, w, pick)
    ensures |tws| == |ws|
    ensures WakeNeutral(k) ==> Count(k, tws[w := p]) == Count(k, ws) - Weight(k, ws[w]) + Weight(k, p)
    ensures WakeCleared(k) ==> Count(k, tws[w := p]) <= Count(k, ws) - Weight(k, ws[w]) + Weight(k, p)
    ensures WakeCleared(k) && !ws[w].Pop? && tws == WakeAll(ws) ==> Count(k, tws[w := p]) == Weight(k, p)
    ensures k.Looker? ==> Count(k, tws[w := p]) >= Count(k, ws) - Weight(k, ws[w]) + Weight(k, p)
  {
    CountUpdate(k, tws, w, p);
    if !ws[w].Pop? && tws == WakeAll(ws) {
      RecountAll(k, ws, w);
      CountAtLeast(k, ws, w);
    } else if tws != ws {
      RecountOne(k, ws, w, pick);
    }
  }

  // For the kinds that waking does not touch.
  lemma Moved(k: Kind, ws: seq<Phase>, tws: seq<Phase>, w: nat, pick: nat, p: Phase)
    requires Disturbed(ws, tws, w, pick) && WakeNeutral(k)
    ensures Count(k, tws[w := p]) == Count(k, ws) - Weight(k, ws[w]) + Weight(k, p)
  {
    Recount(k, ws, tws, w, pick, p);
  }

  lemma RecountOne(k: Kind, ws: seq<Phase>, w: nat, pick: nat)
    requires w < |ws| && pick < |ws| && ws[pick] == Pop(Waiting)
    ensures WakeNeutral(k) ==> Count(k, ws[pick := Pop(Woken)]) == Count(k, ws)
    ensures WakeCleared(k) ==> Count(k, ws[pick := Pop(Woken)]) <= Count(k, ws)
    ensures k.Looker? ==> Count(k, ws[pick := Pop(Woken)]) >= Count(k, ws)
  {
    CountUpdate(k, ws, pick, Pop(Woken));
    assert Wake(Pop(Waiting)) == Pop(Woken);
    WeightWake(k, Pop(Waiting));
  }

  lemma RecountAll(k: Kind, ws: seq<Phase>, w: nat)
    requires w < |ws| && !ws[w].Pop?
    ensures WakeNeutral(k) ==> Count(k, WakeAll(ws)) == Count(k, ws)
    ensures WakeCleared(k) ==> Count(k, WakeAll(ws)) == 0
    ensures k.Looker? ==> Count(k, WakeAll(ws)) >= Count(k, ws)
    ensures Weight(k, WakeAll(ws)[w]) == Weight(k, ws[w])
  {
    CountWakeAll(k, ws);
  }

  lemma MoveDisturbs(c: Config, s: State, w: nat, o: Oracle)
    requires Enabled(c, s, w, o)
    ensures Disturbed(s.ws, Move(c, s, w, o).1.ws, w, o.pick)
  {
  }
}
