// The termination protocol: `pending` is exact, nobody sleeps through the last
// wake-up, and the crawl can always go on until every thread has left.
module Wakeups {
  import opened Prelude
  import opened Protocol
  import opened Census

  // ----- what one move does, seen from the moving thread -----

  predicate Signals(s: State, was: Phase, t: State, p: Phase) {
    // `pending` pays for the queue and for what the thread holds
    && t.f.pending - |t.f.queue| - Debt(p) == s.f.pending - |s.f.queue| - Debt(was)
    // `stopped` is only ever set, by a thread that then notifies
    && (s.f.stopped ==> t.f.stopped)
    && (t.f.stopped && !s.f.stopped ==> IsStopper(p))
    && (IsStopper(was) && !IsStopper(p) ==> t.ws == WakeAll(s.ws) && !IsUnaware(p))
    && (IsUnaware(p) && !IsUnaware(was) ==> !t.f.stopped)
    && (IsAfterStop(p) && !IsAfterStop(was) ==> t.f.stopped)
    // so is `pending` brought to 0
    && (t.f.pending == 0 && s.f.pending > 0 ==> p.Draining?)
    && (was.Draining? && !p.Draining? ==> t.ws == WakeAll(s.ws) && !IsSleepy(p))
    && (IsSleepy(p) && !IsSleepy(was) ==> t.f.pending != 0)
    // a thread stops looking only when there is nothing to look for
    && (|t.f.queue| > |s.f.queue| ==> IsLooker(p))
    && (IsLooker(was) && !IsLooker(p) ==>
          |t.f.queue| == 0 || t.f.pending == 0 || t.f.stopped || IsAfterStop(was) || p.Booted?)
  }

  lemma PopSignals(s: State, at: PopStage, o: Oracle)
    requires PopEnabled(s, at, o)
    ensures var (p, t) := MovePop(s, at, o); Signals(s, Pop(at), t, p)
  {
    if at.Polling? { PollSignals(s, at, o); } else { PopKeeps(s, at, o); }
  }

  lemma PollSignals(s: State, at: PopStage, o: Oracle)
    requires PopEnabled(s, at, o) && at.Polling?
    ensures var (p, t) := MovePop(s, at, o); Signals(s, Pop(at), t, p)
  {
  }

  lemma PopKeeps(s: State, at: PopStage, o: Oracle)
    requires PopEnabled(s, at, o) && !at.Polling?
    ensures var (p, t) := MovePop(s, at, o);
      (t.f.queue, t.f.pending, t.f.stopped, t.ws) == (s.f.queue, s.f.pending, s.f.stopped, s.ws)
      && (p.Pop? || p == Exited(false))
  {
  }

  // Most tasks touch none of this.
  predicate Quiet(s: State, was: Task, t: State, p: Phase) {
    && (t.f.queue, t.f.pending, t.f.stopped) == (s.f.queue, s.f.pending, s.f.stopped)
    && p.Busy? && Debt(p) == 1 && !was.RejectNotifying?
    && !p.task.RejectNotifying? && !IsAfterStop(p)
  }

  lemma AdmitQuiet(c: Config, s: State, item: Item, task: Task, o: Oracle)
    requires IsAdmission(task)
    ensures var (p, t) := MoveAdmit(c, s, item, task, o); Quiet(s, task, t, p)
  {
  }

  lemma FetchQuiet(c: Config, s: State, item: Item, task: Task, o: Oracle)
    requires IsRecording(task)
    ensures var (p, t) := MoveFetch(c, s, item, task, o); Quiet(s, task, t, p)
  {
  }

  lemma LinkQuiet(c: Config, s: State, item: Item, e: Expansion)
    ensures var (p, t) := MoveLink(c, s, item, e); Quiet(s, Expanding(e), t, p)
  {
  }

  lemma PushSignals(c: Config, s: State, item: Item, task: Task, o: Oracle)
    requires TaskEnabled(c, s, item, task, o) && task.Pushing?
    ensures var (p, t) := MoveTask(c, s, item, task, o); Signals(s, Busy(item, task), t, p)
  {
  }

  lemma PlainSignals(c: Config, s: State, item: Item, task: Task, o: Oracle)
    requires TaskEnabled(c, s, item, task, o) && IsPlain(task)
    ensures var (p, t) := MoveTask(c, s, item, task, o); Signals(s, Busy(item, task), t, p)
  {
  }

  lemma TaskSignals(c: Config, s: State, item: Item, task: Task, o: Oracle)
    requires TaskEnabled(c, s, item, task, o)
    ensures var (p, t) := MoveTask(c, s, item, task, o); Signals(s, Busy(item, task), t, p)
  {
    if task.Pushing? { PushSignals(c, s, item, task, o); }
    else if task.Expanding? { LinkQuiet(c, s, item, task.e); }
    else if IsPlain(task) { PlainSignals(c, s, item, task, o); }
    else if IsAdmission(task) { AdmitQuiet(c, s, item, task, o); }
    else { FetchQuiet(c, s, item, task, o); }
  }

  lemma MoveSignals(c: Config, s: State, w: nat, o: Oracle)
    requires Enabled(c, s, w, o)
    ensures var (p, t) := Move(c, s, w, o); Signals(s, s.ws[w], t, p)
  {
    match s.ws[w]
    case Pop(at) => PopSignals(s, at, o);
    case Busy(item, task) => TaskSignals(c, s, item, task, o);
    case _ => LoopSignals(c, s, w, o);
  }

  lemma LoopSignals(c: Config, s: State, w: nat, o: Oracle)
    requires Enabled(c, s, w, o) && !s.ws[w].Pop? && !s.ws[w].Busy?
    ensures var (p, t) := Move(c, s, w, o); Signals(s, s.ws[w], t, p)
  {
    if s.ws[w].Seeding? { SeedSignals(c, s, w, o); }
  }

  lemma SeedSignals(c: Config, s: State, w: nat, o: Oracle)
    requires Enabled(c, s, w, o) && s.ws[w].Seeding?
    ensures var (p, t) := Move(c, s, w, o); Signals(s, s.ws[w], t, p)
  {
  }

  // ----- what every state of a session satisfies -----

  predicate MainPhase(p: Phase) { p.Booting? || p.Seeding? || p.Booted? }

  // Thread 0 is main; no worker moves before main has pushed the seed.
  predicate Crew(s: State) {
    |s.ws| >= 2 && MainPhase(s.ws[0]) &&
    forall i :: 1 <= i < |s.ws| ==> !MainPhase(s.ws[i]) && (!s.ws[0].Booted? ==> s.ws[i].Top?)
  }

  predicate PendingExact(s: State) { s.f.pending == |s.f.queue| + Count(Owes, s.ws) }

  predicate StopHeard(s: State) { s.f.stopped && Count(Unaware, s.ws) > 0 ==> Count(Stopper, s.ws) > 0 }

  predicate DrainHeard(s: State) { s.f.pending == 0 && Count(Sleepy, s.ws) > 0 ==> Count(Drainer, s.ws) > 0 }

  predicate QueueWatched(s: State) { |s.f.queue| > 0 && !s.f.stopped ==> Count(Looker, s.ws) > 0 }

  predicate StopSettled(s: State) { Count(AfterStop, s.ws) > 0 ==> s.f.stopped }

  predicate Alert(s: State) {
    PendingExact(s) && StopHeard(s) && DrainHeard(s) && QueueWatched(s) && StopSettled(s)
  }

  lemma AlertKept(s: State, w: nat, pick: nat, t: State, p: Phase)
    requires Crew(s) && Alert(s) && w < |s.ws| && MainPhase(s.ws[w]) == (w == 0) && (p.Booted? ==> w == 0)
    requires Signals(s, s.ws[w], t, p) && Disturbed(s.ws, t.ws, w, pick)
    requires w == 0 ==> t.ws[1].Top?
    ensures Alert(t.(ws := t.ws[w := p]))
  {
    Recount(Owes, s.ws, t.ws, w, pick, p);
    Recount(AfterStop, s.ws, t.ws, w, pick, p);
    CountAtLeast(AfterStop, s.ws, w);
    HeardKept(s, w, pick, t, p);
    WatchedKept(s, w, pick, t, p);
  }

  lemma HeardKept(s: State, w: nat, pick: nat, t: State, p: Phase)
    requires PendingExact(s) && StopHeard(s) && DrainHeard(s) && w < |s.ws|
    requires Signals(s, s.ws[w], t, p) && Disturbed(s.ws, t.ws, w, pick)
    ensures var s' := t.(ws := t.ws[w := p]); StopHeard(s') && DrainHeard(s')
  {
    var ws' := t.ws[w := p];
    Recount(Unaware, s.ws, t.ws, w, pick, p);
    Recount(Stopper, s.ws, t.ws, w, pick, p);
    Recount(Sleepy, s.ws, t.ws, w, pick, p);
    Recount(Drainer, s.ws, t.ws, w, pick, p);
    CountAtLeast(Stopper, ws', w);
    CountAtLeast(Drainer, ws', w);
  }

  lemma WatchedKept(s: State, w: nat, pick: nat, t: State, p: Phase)
    requires PendingExact(s) && QueueWatched(s) && StopSettled(s) && w < |s.ws|
    requires Signals(s, s.ws[w], t, p) && Disturbed(s.ws, t.ws, w, pick)
    requires p.Booted? ==> w == 0 && |t.ws| >= 2 && t.ws[1].Top?
    ensures QueueWatched(t.(ws := t.ws[w := p]))
  {
    var ws' := t.ws[w := p];
    Recount(Looker, s.ws, t.ws, w, pick, p);
    Recount(Owes, s.ws, t.ws, w, pick, p);
    CountAtLeast(Looker, ws', w);
    CountAtLeast(AfterStop, s.ws, w);
    if p.Booted? { CountAtLeast(Looker, ws', 1); }
  }

  lemma CrewStep(c: Config, s: State, w: nat, o: Oracle)
    requires Crew(s) && Enabled(c, s, w, o)
    ensures Crew(Step(c, s, w, o))
    ensures MainPhase(s.ws[w]) == MainPhase(Move(c, s, w, o).0) == (w == 0)
    ensures w == 0 ==> Move(c, s, w, o).1.ws[1].Top?
  {
    MoveDisturbs(c, s, w, o);
    RoleKept(c, s, w, o);
  }

  lemma RoleKept(c: Config, s: State, w: nat, o: Oracle)
    requires Crew(s) && Enabled(c, s, w, o)
    ensures MainPhase(s.ws[w]) == MainPhase(Move(c, s, w, o).0) == (w == 0)
  {
  }

  lemma AlertStep(c: Config, s: State, w: nat, o: Oracle)
    requires Crew(s) && Alert(s) && Enabled(c, s, w, o)
    ensures Crew(Step(c, s, w, o)) && Alert(Step(c, s, w, o))
  {
    var (p, t) := Move(c, s, w, o);
    CrewStep(c, s, w, o);
    MoveSignals(c, s, w, o);
    MoveDisturbs(c, s, w, o);
    AlertKept(s, w, o.pick, t, p);
  }

  // ----- sessions: all runs of a process from its start -----

  ghost predicate IsRun(c: Config, run: seq<State>) {
    |run| > 0 && forall i :: 0 < i < |run| ==> Next(c, run[i - 1], run[i])
  }

  lemma LastStep(c: Config, run: seq<State>) returns (w: nat, o: Oracle)
    requires IsRun(c, run) && |run| > 1
    ensures IsRun(c, run[..|run| - 1]) && Last(run[..|run| - 1]) == run[|run| - 2]
    ensures Enabled(c, run[|run| - 2], w, o) && Last(run) == Step(c, run[|run| - 2], w, o)
  {
    assert Next(c, run[|run| - 1 - 1], run[|run| - 1]);
    w, o :| Enabled(c, run[|run| - 2], w, o) && Last(run) == Step(c, run[|run| - 2], w, o);
  }

  // With or without a store to resume from; `concurrency.max(1)` workers.
  ghost predicate IsStart(c: Config, s: State) {
    exists n: nat, d: Tables, seq0: nat, h: History :: n >= 1 && s == Start(c, n, d, seq0, h)
  }

  ghost predicate Session(c: Config, run: seq<State>) { IsRun(c, run) && IsStart(c, run[0]) }

  lemma StartAlert(c: Config, n: nat, d: Tables, seq0: nat, h: History)
    requires n >= 1
    ensures Crew(Start(c, n, d, seq0, h)) && Alert(Start(c, n, d, seq0, h))
  {
    SpawnShape(n);
    StartCounts(n);
    StartLooks(n);
  }

  lemma StartCounts(n: nat)
    ensures Count(Owes, Spawn(n)) == Count(Unaware, Spawn(n)) == Count(Sleepy, Spawn(n)) == 0
    ensures Count(AfterStop, Spawn(n)) == 0
  {
    var ws := Spawn(n);
    SpawnShape(n);
    CountZero(Owes, ws);
    CountZero(Unaware, ws);
    CountZero(Sleepy, ws);
    CountZero(AfterStop, ws);
  }

  lemma StartLooks(n: nat)
    ensures Count(Looker, Spawn(n)) > 0
  {
    SpawnShape(n);
    CountAtLeast(Looker, Spawn(n), 0);
  }

  lemma {:induction false} AlertAlways(c: Config, run: seq<State>)
    requires Session(c, run)
    ensures Crew(Last(run)) && Alert(Last(run))
  {
    var last := |run| - 1;
    if last == 0 {
      var n: nat, d, seq0: nat, h :| n >= 1 && run[0] == Start(c, n, d, seq0, h);
      StartAlert(c, n, d, seq0, h);
    } else {
      AlertAlways(c, run[..last]);
      var w, o := LastStep(c, run);
      AlertStep(c, run[last - 1], w, o);
    }
  }

  // No lost wake-up: somebody parked and not notified means that no stop and no
  // drain happened whose broadcast is not still on its way.
  lemma NoLostWakeup(c: Config, run: seq<State>, i: nat)
    requires Session(c, run) && i < |Last(run).ws| && Last(run).ws[i] == Pop(Waiting)
    ensures !Last(run).f.stopped || exists j :: 0 <= j < |Last(run).ws| && IsStopper(Last(run).ws[j])
    ensures Last(run).f.pending > 0 || exists j :: 0 <= j < |Last(run).ws| && Last(run).ws[j].Draining?
  {
    var s := Last(run);
    AlertAlways(c, run);
    CountAtLeast(Unaware, s.ws, i);
    CountAtLeast(Sleepy, s.ws, i);
    if s.f.stopped { var j := CountWitness(Stopper, s.ws); }
    if s.f.pending == 0 { var j := CountWitness(Drainer, s.ws); }
  }

  // ----- leaving early -----

  // Main is done, nothing is queued, in hand or being pushed.
  predicate NoWork(s: State) {
    s.f.pending == 0 && s.f.queue == multiset{} && |s.ws| > 0 && s.ws[0].Booted? &&
    forall i :: 0 <= i < |s.ws| ==> !s.ws[i].Busy? && !s.ws[i].Seeding? && !s.ws[i].Booting?
  }

  // A worker that gets None from `pop` while the crawl is not stopped is right...
  lemma ExitMeansNoWork(c: Config, run: seq<State>, w: nat, o: Oracle)
    requires Session(c, run) && Enabled(c, Last(run), w, o)
    requires Last(run).ws[w].Pop? && !Last(run).f.stopped
    requires Step(c, Last(run), w, o).ws[w].Exited?
    ensures NoWork(Last(run)) && NoWork(Step(c, Last(run), w, o))
  {
    var s := Last(run);
    AlertAlways(c, run);
    assert s.f.pending == 0;
    NoPendingNoWork(s, w);
    NoWorkStep(c, s, w, o);
  }

  lemma NoPendingNoWork(s: State, w: nat)
    requires Crew(s) && PendingExact(s) && s.f.pending == 0 && w < |s.ws| && s.ws[w].Pop?
    ensures NoWork(s)
  {
    forall i | 0 <= i < |s.ws| ensures !s.ws[i].Busy? && !s.ws[i].Seeding? && !s.ws[i].Booting? { CountAtLeast(Owes, s.ws, i); }
  }

  // ...and stays right, whatever the others do.
  lemma NoWorkStep(c: Config, s: State, w: nat, o: Oracle)
    requires NoWork(s) && Enabled(c, s, w, o)
    ensures NoWork(Step(c, s, w, o))
  {
    MoveDisturbs(c, s, w, o);
  }

  lemma {:induction false} NoWorkForever(c: Config, run: seq<State>)
    requires IsRun(c, run) && NoWork(run[0])
    ensures NoWork(Last(run))
  {
    var last := |run| - 1;
    if last > 0 {
      NoWorkForever(c, run[..last]);
      var w, o := LastStep(c, run);
      NoWorkStep(c, run[last - 1], w, o);
    }
  }

  // ----- no deadlock -----

  lemma {:induction false} QueueHasTop(queue: multiset<Item>) returns (top: Item)
    requires queue != multiset{}
    ensures IsTop(queue, top)
    decreases |queue|
  {
    var first :| first in queue;
    var rest := queue - multiset{first};
    assert queue == rest + multiset{first};
    if rest == multiset{} {
      top := first;
    } else {
      var other := QueueHasTop(rest);
      top := if Above(other, first) then other else first;
    }
  }

  // A worker asking for the global permit always finds one free: there are as
  // many as workers, main takes none and each holds at most one.
  lemma GlobalPermitFree(s: State, w: nat)
    requires Crew(s) && w < |s.ws| && s.ws[w].Busy? && s.ws[w].task.Acquiring?
    ensures |GlobalHolders(s.ws)| < s.Workers()
  {
    UptoSize(|s.ws|);
    assert GlobalHolders(s.ws) <= Upto(|s.ws|) - {0, w};
    SubsetSize(GlobalHolders(s.ws), Upto(|s.ws|) - {0, w});
  }

  function Upto(n: nat): set<nat> {
    if n == 0 then {} else Upto(n - 1) + {n - 1}
  }

  lemma {:induction false} UptoSize(n: nat)
    ensures |Upto(n)| == n && forall i :: i in Upto(n) <==> 0 <= i < n
  {
    if n > 0 { UptoSize(n - 1); }
  }

  lemma SubsetSize<T>(a: set<T>, b: set<T>)
    requires a <= b
    ensures |a| <= |b|
  {
    assert b == a + (b - a);
  }

  // Anything but parked, gone, or queueing for a host permit or the store.
  predicate Ready(p: Phase) {
    match p
    case Booted => false case Exited(_) => false
    case Pop(at) => !at.Waiting?
    case Seeding(_, stage) => !stage.MarkingSeen?
    case Busy(_, task) =>
      !task.Reserved? && !task.Leasing? && !task.Deleting? && !(task.Pushing? && task.stage.MarkingSeen?)
    case _ => true
  }

  // Neither the store mutex nor a host permit is held by a thread that waits for one.
  lemma ReadyRuns(c: Config, s: State, w: nat) returns (o: Oracle)
    requires Crew(s) && w < |s.ws| && Ready(s.ws[w]) && (s.ws[w].Top? ==> s.ws[0].Booted?)
    ensures Enabled(c, s, w, o) && !o.flag
  {
    var item := Item(c.seed, 0, None, 0, 0);
    var pick := 0;
    if s.f.queue != multiset{} { item := QueueHasTop(s.f.queue); }
    if SomeoneWaiting(s.ws) { pick :| 0 <= pick < |s.ws| && s.ws[pick] == Pop(Waiting); }
    if s.ws[w].Busy? && s.ws[w].task.Acquiring? { GlobalPermitFree(s, w); }
    o := Oracle(false, item, pick, None);
  }

  // With nobody ready, nobody holds the store mutex, and nobody but threads that
  // wait for the mutex holds a host permit.
  lemma BlockedRuns(c: Config, s: State, w: nat) returns (v: nat, o: Oracle)
    requires Crew(s) && c.Valid() && w < |s.ws| && (s.ws[w].Busy? || s.ws[w].Seeding?)
    requires forall i :: 0 <= i < |s.ws| ==> !Ready(s.ws[i])
    ensures Enabled(c, s, v, o) && !o.flag
  {
    assert StoreFree(s.ws);
    o := Oracle(false, Item(c.seed, 0, None, 0, 0), 0, None);
    v := w;
    if s.ws[w].Busy? && s.ws[w].task.Reserved? {
      var holders := HostHolders(s.ws, s.ws[w].item.url.host);
      if holders != {} {
        v :| v in holders;
      }
    }
  }

  // Everybody parked or gone is impossible while somebody is parked.
  lemma NotAllParked(s: State, w: nat)
    requires Crew(s) && Alert(s) && w < |s.ws| && s.ws[w] == Pop(Waiting)
    ensures exists i :: 0 <= i < |s.ws| && (Ready(s.ws[i]) || s.ws[i].Busy? || s.ws[i].Seeding?)
  {
    if forall i :: 0 <= i < |s.ws| ==> s.ws[i] == Pop(Waiting) || s.ws[i].Exited? || s.ws[i].Booted? {
      CountAtLeast(Unaware, s.ws, w);
      CountAtLeast(Sleepy, s.ws, w);
      if s.f.stopped { var j := CountWitness(Stopper, s.ws); }
      else if s.f.pending == 0 { var j := CountWitness(Drainer, s.ws); }
      else {
        CountZero(Owes, s.ws);
        var j := CountWitness(Looker, s.ws);
      }
      assert false;
    }
  }

  // Until all have left, somebody can move, and without a spurious CAS failure.
  lemma NoDeadlock(c: Config, run: seq<State>)
    requires Session(c, run) && c.Valid() && !Finished(Last(run))
    ensures exists w: nat, o: Oracle :: Enabled(c, Last(run), w, o) && !o.flag
  {
    var s := Last(run);
    AlertAlways(c, run);
    if !s.ws[0].Booted? {
      if Ready(s.ws[0]) { var o := ReadyRuns(c, s, 0); }
      else {
        assert StoreFree(s.ws);
        assert Enabled(c, s, 0, Oracle(false, Item(c.seed, 0, None, 0, 0), 0, None));
      }
    } else if w: nat :| w < |s.ws| && Ready(s.ws[w]) {
      var o := ReadyRuns(c, s, w);
    } else {
      var w: nat :| 1 <= w < |s.ws| && !s.ws[w].Exited?;
      if s.ws[w] == Pop(Waiting) {
        NotAllParked(s, w);
        w :| w < |s.ws| && (Ready(s.ws[w]) || s.ws[w].Busy? || s.ws[w].Seeding?);
      }
      var v, o := BlockedRuns(c, s, w);
    }
  }
}
