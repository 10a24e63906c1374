// Budget drops: an item taken from the queue and completed without being fetched.
// They need a limit, and a second worker to race for it.
module Drops {
  import opened Prelude
  import opened Protocol
  import opened Census
  import opened Wakeups
  import opened Accounting
  import opened Scripts
  import Coverage
  import Races

  lemma {:induction false} CrewStays(c: Config, run: seq<State>)
    requires IsRun(c, run)
    ensures |Last(run).ws| == |run[0].ws|
  {
    if |run| > 1 {
      var w, o := LastStep(c, run);
      CrewStays(c, run[..|run| - 1]);
    }
  }

  // ----- one worker -----

  // Nothing happens between a worker's look at the budget and its reservation.
  predicate Solvent(c: Config, s: State, p: Phase) {
    match p
    case Pop(_) => HasBudget(c, s)
    case Busy(_, task) =>
      (match task
       case Leasing => HasBudget(c, s) case Acquiring => HasBudget(c, s) case Vetting => HasBudget(c, s)
       case Robots => HasBudget(c, s) case Loading => HasBudget(c, s)
       case Reserving(current) => HasBudget(c, s) && current == s.t.fetched
       case _ => !IsDropper(p))
    case _ => !IsDropper(p)
  }

  lemma MoveSolvent(c: Config, s: State, w: nat, o: Oracle)
    requires Enabled(c, s, w, o) && Solvent(c, s, s.ws[w])
    ensures Solvent(c, Move(c, s, w, o).1, Move(c, s, w, o).0)
  {
    if s.ws[w].Busy? { TaskSolvent(c, s, s.ws[w].item, s.ws[w].task, o); }
  }

  lemma TaskSolvent(c: Config, s: State, item: Item, task: Task, o: Oracle)
    requires TaskEnabled(c, s, item, task, o) && Solvent(c, s, Busy(item, task))
    ensures var (p, t) := MoveTask(c, s, item, task, o); Solvent(c, t, p)
  {
    if IsAdmission(task) { AdmitSolvent(c, s, item, task, o); } else { LaterSolvent(c, s, item, task, o); }
  }

  lemma AdmitSolvent(c: Config, s: State, item: Item, task: Task, o: Oracle)
    requires IsAdmission(task) && Solvent(c, s, Busy(item, task))
    ensures var (p, t) := MoveAdmit(c, s, item, task, o); Solvent(c, t, p)
  {
  }

  lemma LaterSolvent(c: Config, s: State, item: Item, task: Task, o: Oracle)
    requires TaskEnabled(c, s, item, task, o) && !IsAdmission(task) && Solvent(c, s, Busy(item, task))
    ensures var (p, t) := MoveTask(c, s, item, task, o); Solvent(c, t, p)
  {
    if IsRecording(task) { RecordingSolvent(c, s, item, task, o); }
  }

  lemma RecordingSolvent(c: Config, s: State, item: Item, task: Task, o: Oracle)
    requires IsRecording(task)
    ensures var (p, t) := MoveFetch(c, s, item, task, o); Solvent(c, t, p)
  {
  }

  lemma SolventStep(c: Config, s: State, w: nat, o: Oracle)
    requires Crew(s) && |s.ws| == 2 && Solvent(c, s, s.ws[1]) && Enabled(c, s, w, o)
    ensures Solvent(c, Step(c, s, w, o), Step(c, s, w, o).ws[1])
  {
    MoveDisturbs(c, s, w, o);
    if w == 1 { MoveSolvent(c, s, w, o); }
  }

  lemma {:induction false} SolventAlways(c: Config, run: seq<State>)
    requires Session(c, run) && |run[0].ws| == 2
    ensures |Last(run).ws| == 2 && Solvent(c, Last(run), Last(run).ws[1])
  {
    CrewStays(c, run);
    if |run| == 1 {
      var n: nat, d, seq0: nat, h :| n >= 1 && run[0] == Start(c, n, d, seq0, h);
      SpawnShape(n);
    } else {
      var w, o := LastStep(c, run);
      AlertAlways(c, run[..|run| - 1]);
      SolventAlways(c, run[..|run| - 1]);
      SolventStep(c, run[|run| - 2], w, o);
    }
  }

  // ----- a budget of nothing -----

  predicate Turned(p: Phase) { p.Top? || p.Halting? || p.HaltNotifying? || p == Exited(false) }

  predicate AllTurned(s: State) { forall i :: 1 <= i < |s.ws| ==> Turned(s.ws[i]) }

  lemma TurnedStep(c: Config, s: State, w: nat, o: Oracle)
    requires Crew(s) && AllTurned(s) && c.maxUrls == Some(0) && s.t.fetched >= 0 && Enabled(c, s, w, o)
    ensures AllTurned(Step(c, s, w, o))
  {
    MoveDisturbs(c, s, w, o);
  }

  lemma {:induction false} TurnedAlways(c: Config, run: seq<State>)
    requires Counted(c, run) && c.maxUrls == Some(0)
    ensures AllTurned(Last(run))
  {
    if |run| == 1 {
      var n: nat, d, seq0: nat, h :| n >= 1 && run[0] == Start(c, n, d, seq0, h);
      SpawnShape(n);
    } else {
      var w, o := LastStep(c, run);
      AlertAlways(c, run[..|run| - 1]);
      BooksAlways(c, run[..|run| - 1]);
      TurnedAlways(c, run[..|run| - 1]);
      TurnedStep(c, run[|run| - 2], w, o);
    }
  }

  // ----- when drops can happen -----

  // On any store: without a limit, with a limit of 0 or with one worker, none.
  lemma NoDrops(c: Config, run: seq<State>)
    requires Counted(c, run)
    requires c.maxUrls.None? || c.maxUrls == Some(0) || Last(run).Workers() == 1
    ensures Last(run).h.dropped == 0
  {
    var s := Last(run);
    BooksAlways(c, run);
    AlertAlways(c, run);
    CrewStays(c, run);
    if c.maxUrls == Some(0) { TurnedAlways(c, run); }
    else if c.maxUrls.Some? { SolventAlways(c, run); }
    forall i | 0 <= i < |s.ws| ensures Weight(Dropper, s.ws[i]) == 0 { NotDropper(c, s, i); }
    CountZero(Dropper, s.ws);
  }

  lemma NotDropper(c: Config, s: State, i: nat)
    requires Crew(s) && BudgetExact(c, s) && i < |s.ws|
    requires c.maxUrls.None? || AllTurned(s) || (|s.ws| == 2 && Solvent(c, s, s.ws[1]))
    ensures !IsDropper(s.ws[i])
  {
    assert Ruled(c, s.ws[i]);
  }

  // Some crawl of n workers with this limit drops an item.
  ghost predicate CanDrop(n: nat, limit: Option<nat>) {
    exists c: Config, run :: DropRun(c, n, limit, run)
  }

  ghost predicate DropRun(c: Config, n: nat, limit: Option<nat>, run: seq<State>) {
    c.maxUrls == limit && Coverage.FreshRun(c, run) && run[0] == Fresh(c, n) && Last(run).h.dropped > 0
  }

  // Exactly with a limit of at least 1 and at least two workers, for limits of 64 bits.
  lemma DropsNeedARace(n: nat, limit: Option<nat>)
    requires n >= 1 && (limit.Some? ==> limit.value < 0x1_0000_0000_0000_0000)
    ensures CanDrop(n, limit) <==> n >= 2 && limit.Some? && limit.value >= 1
  {
    if CanDrop(n, limit) {
      var c: Config, run :| DropRun(c, n, limit, run);
      SpawnShape(n);
      CrewStays(c, run);
      if n == 1 || limit.None? || limit.value == 0 { NoDrops(c, run); }
    }
    if n >= 2 && limit.Some? && limit.value >= 1 {
      var run := Races.DropIsForGood(n, limit.value);
      assert DropRun(Races.Chain(limit.value), n, limit, run);
    }
  }
}
