// The hard URL budget and the statistics of a crawl: exact in every reachable
// state, with load, compare-exchange, spurious failure and release as separate steps.
module Accounting {
  import opened Prelude
  import opened Protocol
  import opened Census
  import opened Wakeups

  // Phases only a crawl with `max_urls` reaches.
  predicate BudgetTask(task: Task) {
    task.Loading? || task.Reserving? || task.Releasing? || Rejected(task)
  }

  predicate Ruled(c: Config, p: Phase) {
    c.maxUrls.None? ==> !(p.Busy? && BudgetTask(p.task)) && !IsDropper(p)
  }

  // Every item with an outcome, plus the queue.
  function Outcomes(s: State): int {
    |s.t.pages| + s.t.skipped + s.t.errors + s.h.dropped + |s.f.queue|
  }

  // `accepted`: the seed's fingerprint was new.
  function Intake(accepted: bool, p: Phase): int {
    Bit(IsUntallied(p)) - Bit(IsUnsettled(p)) + (if accepted then Bit(IsSeeded(p)) else 0)
  }

  // ----- what one move does to the budget, seen from the moving thread -----

  predicate Slots(c: Config, s: State, was: Phase, t: State, p: Phase) {
    && Ruled(c, p)
    && (c.maxUrls.None? ==> t.t.fetched == s.t.fetched)
    && (c.maxUrls.Some? ==>
          t.t.fetched - |t.t.pages| - Bit(IsReservation(p)) == s.t.fetched - |s.t.pages| - Bit(IsReservation(was))
          && (t.t.fetched > s.t.fetched ==> t.t.fetched <= c.maxUrls.value))
    && t.h.dropped - Bit(IsDropper(p)) == s.h.dropped - Bit(IsDropper(was))
  }

  lemma PopSlots(c: Config, s: State, at: PopStage, o: Oracle)
    requires PopEnabled(s, at, o)
    ensures var (p, t) := MovePop(s, at, o); Slots(c, s, Pop(at), t, p)
  {
  }

  lemma AdmitSlots(c: Config, s: State, item: Item, task: Task, o: Oracle)
    requires Ruled(c, Busy(item, task))
    ensures var (p, t) := MoveAdmit(c, s, item, task, o); Slots(c, s, Busy(item, task), t, p)
  {
  }

  lemma FetchSlots(c: Config, s: State, item: Item, task: Task, o: Oracle)
    requires Ruled(c, Busy(item, task))
    ensures var (p, t) := MoveFetch(c, s, item, task, o); Slots(c, s, Busy(item, task), t, p)
  {
  }

  lemma PushSlots(c: Config, s: State, item: Item, task: Task, o: Oracle)
    requires TaskEnabled(c, s, item, task, o) && Ruled(c, Busy(item, task)) && (task.Pushing? || task.Expanding?)
    ensures var (p, t) := MoveTask(c, s, item, task, o); Slots(c, s, Busy(item, task), t, p)
  {
  }

  lemma PlainSlots(c: Config, s: State, item: Item, task: Task, o: Oracle)
    requires TaskEnabled(c, s, item, task, o) && Ruled(c, Busy(item, task)) && IsPlain(task)
    ensures var (p, t) := MoveTask(c, s, item, task, o); Slots(c, s, Busy(item, task), t, p)
  {
  }

  lemma TaskSlots(c: Config, s: State, item: Item, task: Task, o: Oracle)
    requires TaskEnabled(c, s, item, task, o) && Ruled(c, Busy(item, task))
    ensures var (p, t) := MoveTask(c, s, item, task, o); Slots(c, s, Busy(item, task), t, p)
  {
    if task.Pushing? || task.Expanding? { PushSlots(c, s, item, task, o); }
    else if IsPlain(task) { PlainSlots(c, s, item, task, o); }
    else if IsAdmission(task) { AdmitSlots(c, s, item, task, o); }
    else { FetchSlots(c, s, item, task, o); }
  }

  lemma MoveSlots(c: Config, s: State, w: nat, o: Oracle)
    requires Enabled(c, s, w, o) && Ruled(c, s.ws[w])
    ensures var (p, t) := Move(c, s, w, o); Slots(c, s, s.ws[w], t, p)
  {
    match s.ws[w]
    case Pop(at) => PopSlots(c, s, at, o);
    case Busy(item, task) => TaskSlots(c, s, item, task, o);
    case _ =>
  }

  // ----- what it does to the outcome counters -----

  // Main knows whether the seed is new as soon as it leaves Booting.
  predicate SeedKnown(c: Config, accepted: bool, s: State) {
    |s.ws| > 0 &&
    (s.ws[0].Booting? ==> accepted == (c.fp(c.Norm(c.seed)) !in s.f.visited)) &&
    (s.ws[0].Seeding? ==> accepted)
  }

  predicate Flow(c: Config, accepted: bool, s: State, was: Phase, t: State, p: Phase) {
    && t.t.errors - |t.t.errorLog| - Bit(p.Busy? && p.task.Logging?)
         == s.t.errors - |s.t.errorLog| - Bit(was.Busy? && was.task.Logging?)
    && t.t.discovered + Intake(accepted, p) - Outcomes(t) == s.t.discovered + Intake(accepted, was) - Outcomes(s)
  }

  lemma PopFlow(c: Config, a: bool, s: State, at: PopStage, o: Oracle)
    requires PopEnabled(s, at, o)
    ensures var (p, t) := MovePop(s, at, o); Flow(c, a, s, Pop(at), t, p)
  {
    PopOutcomes(s, at, o);
  }

  lemma PopOutcomes(s: State, at: PopStage, o: Oracle)
    requires PopEnabled(s, at, o)
    ensures var (p, t) := MovePop(s, at, o);
      t.t == s.t && t.h == s.h && |t.f.queue| == |s.f.queue| - Bit(p.Busy?)
      && (p.Pop? || p == Busy(o.item, Leasing) || p == Exited(false))
  {
  }

  lemma AdmitFlow(c: Config, a: bool, s: State, item: Item, task: Task, o: Oracle)
    requires Ruled(c, Busy(item, task))
    ensures var (p, t) := MoveAdmit(c, s, item, task, o); Flow(c, a, s, Busy(item, task), t, p)
  {
  }

  lemma FetchFlow(c: Config, a: bool, s: State, item: Item, task: Task, o: Oracle)
    requires Ruled(c, Busy(item, task))
    ensures var (p, t) := MoveFetch(c, s, item, task, o); Flow(c, a, s, Busy(item, task), t, p)
  {
  }

  lemma PushFlow(c: Config, a: bool, s: State, item: Item, task: Task, o: Oracle)
    requires TaskEnabled(c, s, item, task, o) && task.Pushing?
    ensures var (p, t) := MoveTask(c, s, item, task, o); Flow(c, a, s, Busy(item, task), t, p)
  {
  }

  lemma LinkFlow(c: Config, a: bool, s: State, item: Item, e: Expansion)
    ensures var (p, t) := MoveLink(c, s, item, e); Flow(c, a, s, Busy(item, Expanding(e)), t, p)
  {
  }

  lemma PlainFlow(c: Config, a: bool, s: State, item: Item, task: Task, o: Oracle)
    requires TaskEnabled(c, s, item, task, o) && Ruled(c, Busy(item, task)) && IsPlain(task)
    ensures var (p, t) := MoveTask(c, s, item, task, o); Flow(c, a, s, Busy(item, task), t, p)
  {
  }

  lemma TaskFlow(c: Config, a: bool, s: State, item: Item, task: Task, o: Oracle)
    requires TaskEnabled(c, s, item, task, o) && Ruled(c, Busy(item, task))
    ensures var (p, t) := MoveTask(c, s, item, task, o); Flow(c, a, s, Busy(item, task), t, p)
  {
    if task.Pushing? { PushFlow(c, a, s, item, task, o); }
    else if task.Expanding? { LinkFlow(c, a, s, item, task.e); }
    else if IsPlain(task) { PlainFlow(c, a, s, item, task, o); }
    else if IsAdmission(task) { AdmitFlow(c, a, s, item, task, o); }
    else { FetchFlow(c, a, s, item, task, o); }
  }

  lemma MoveFlow(c: Config, a: bool, s: State, w: nat, o: Oracle)
    requires Enabled(c, s, w, o) && Ruled(c, s.ws[w]) && SeedKnown(c, a, s)
    requires MainPhase(s.ws[w]) == (w == 0)
    ensures var (p, t) := Move(c, s, w, o); Flow(c, a, s, s.ws[w], t, p)
  {
    match s.ws[w]
    case Pop(at) => PopFlow(c, a, s, at, o);
    case Busy(item, task) => TaskFlow(c, a, s, item, task, o);
    case _ => LoopFlow(c, a, s, w, o);
  }

  lemma LoopFlow(c: Config, a: bool, s: State, w: nat, o: Oracle)
    requires Enabled(c, s, w, o) && SeedKnown(c, a, s) && MainPhase(s.ws[w]) == (w == 0)
    requires !s.ws[w].Pop? && !s.ws[w].Busy?
    ensures var (p, t) := Move(c, s, w, o); Flow(c, a, s, s.ws[w], t, p)
  {
  }

  // ----- the books of a session -----

  predicate AllRuled(c: Config, ws: seq<Phase>) { forall i :: 0 <= i < |ws| ==> Ruled(c, ws[i]) }

  predicate BudgetExact(c: Config, s: State) {
    && AllRuled(c, s.ws)
    && (c.maxUrls.None? ==> s.t.fetched == 0)
    && (c.maxUrls.Some? ==>
          s.t.fetched == |s.t.pages| + Count(Reservation, s.ws) && s.t.fetched <= c.maxUrls.value)
    && s.h.dropped == Count(Dropper, s.ws)
  }

  // `restored`: how many items `load` put in the queue.
  predicate Conserved(c: Config, accepted: bool, restored: nat, s: State) {
    && SeedKnown(c, accepted, s)
    && s.t.errors == |s.t.errorLog| + Count(Logger, s.ws)
    && s.t.discovered + Count(Untallied, s.ws) + restored + (if accepted then Count(Seeded, s.ws) else 0)
         == Outcomes(s) + Count(Unsettled, s.ws)
  }

  lemma BudgetKept(c: Config, s: State, w: nat, pick: nat, t: State, p: Phase)
    requires BudgetExact(c, s) && w < |s.ws|
    requires Slots(c, s, s.ws[w], t, p) && Disturbed(s.ws, t.ws, w, pick)
    ensures BudgetExact(c, t.(ws := t.ws[w := p]))
  {
    Moved(Reservation, s.ws, t.ws, w, pick, p);
    Moved(Dropper, s.ws, t.ws, w, pick, p);
    RuledKept(c, s.ws, t.ws, w, pick, p);
  }

  lemma RuledKept(c: Config, ws: seq<Phase>, tws: seq<Phase>, w: nat, pick: nat, p: Phase)
    requires Disturbed(ws, tws, w, pick) && Ruled(c, p)
    requires AllRuled(c, ws)
    ensures AllRuled(c, tws[w := p])
  {
  }

  lemma ConservedKept(c: Config, a: bool, restored: nat, s: State, w: nat, pick: nat, t: State, p: Phase)
    requires Conserved(c, a, restored, s) && w < |s.ws|
    requires Flow(c, a, s, s.ws[w], t, p) && Disturbed(s.ws, t.ws, w, pick)
    requires SeedKnown(c, a, t.(ws := t.ws[w := p]))
    ensures Conserved(c, a, restored, t.(ws := t.ws[w := p]))
  {
    Moved(Logger, s.ws, t.ws, w, pick, p);
    Moved(Untallied, s.ws, t.ws, w, pick, p);
    Moved(Seeded, s.ws, t.ws, w, pick, p);
    Moved(Unsettled, s.ws, t.ws, w, pick, p);
  }

  lemma BooksStep(c: Config, a: bool, restored: nat, s: State, w: nat, o: Oracle)
    requires Crew(s) && BudgetExact(c, s) && Conserved(c, a, restored, s) && Enabled(c, s, w, o)
    ensures BudgetExact(c, Step(c, s, w, o)) && Conserved(c, a, restored, Step(c, s, w, o))
  {
    var (p, t) := Move(c, s, w, o);
    CrewStep(c, s, w, o);
    MoveSlots(c, s, w, o);
    MoveFlow(c, a, s, w, o);
    MoveDisturbs(c, s, w, o);
    SeedKnownStep(c, a, s, w, o);
    BudgetKept(c, s, w, o.pick, t, p);
    ConservedKept(c, a, restored, s, w, o.pick, t, p);
  }

  lemma SeedKnownStep(c: Config, a: bool, s: State, w: nat, o: Oracle)
    requires Crew(s) && SeedKnown(c, a, s) && Enabled(c, s, w, o)
    ensures SeedKnown(c, a, Step(c, s, w, o))
  {
    MoveDisturbs(c, s, w, o);
    CrewStep(c, s, w, o);
  }

  // ----- sessions -----

  predicate Accepted(c: Config, start: State) { c.fp(c.Norm(c.seed)) !in start.f.visited }

  lemma StartBooks(c: Config, n: nat, d: Tables, seq0: nat, h: History)
    requires n >= 1 && h.dropped == 0
    ensures
      var s := Start(c, n, d, seq0, h);
      BudgetExact(c, s) && Conserved(c, Accepted(c, s), |s.f.queue|, s)
  {
    SpawnShape(n);
    StartWeights(n);
    StartTotals(c, n, d, seq0, h);
  }

  lemma StartWeights(n: nat)
    ensures Count(Reservation, Spawn(n)) == Count(Dropper, Spawn(n)) == Count(Logger, Spawn(n)) == 0
    ensures Count(Untallied, Spawn(n)) == Count(Seeded, Spawn(n)) == Count(Unsettled, Spawn(n)) == 0
  {
    SpawnZero(Reservation, n);
    SpawnZero(Dropper, n);
    SpawnZero(Logger, n);
    SpawnZero(Untallied, n);
    SpawnZero(Seeded, n);
    SpawnZero(Unsettled, n);
  }

  lemma SpawnZero(k: Kind, n: nat)
    requires Weight(k, Booting) == 0 && Weight(k, Top) == 0
    ensures Count(k, Spawn(n)) == 0
  {
    SpawnShape(n);
    CountZero(k, Spawn(n));
  }

  lemma StartTotals(c: Config, n: nat, d: Tables, seq0: nat, h: History)
    ensures var s := Start(c, n, d, seq0, h);
      s.ws == Spawn(n) && Outcomes(s) == h.dropped + |s.f.queue| && s.t == Stats(0, 0, 0, 0, [], [])
  {
  }

  // A session that counts dropped items from 0.
  ghost predicate Counted(c: Config, run: seq<State>) { Session(c, run) && run[0].h.dropped == 0 }

  lemma {:induction false} BooksAlways(c: Config, run: seq<State>)
    requires Counted(c, run)
    ensures BudgetExact(c, Last(run)) && Conserved(c, Accepted(c, run[0]), |run[0].f.queue|, Last(run))
  {
    if |run| == 1 {
      var n: nat, d, seq0: nat, h :| n >= 1 && run[0] == Start(c, n, d, seq0, h);
      StartBooks(c, n, d, seq0, h);
    } else {
      var w, o := LastStep(c, run);
      BooksAlways(c, run[..|run| - 1]);
      AlertAlways(c, run[..|run| - 1]);
      BooksStep(c, Accepted(c, run[0]), |run[0].f.queue|, run[|run| - 2], w, o);
    }
  }

  // The budget is hard, in every state and under every interleaving: a slot is a
  // page or a worker's reservation, and there are never more than `max_urls`.
  lemma HardBudget(c: Config, run: seq<State>)
    requires Counted(c, run) && c.maxUrls.Some?
    ensures Last(run).t.fetched == |Last(run).t.pages| + Count(Reservation, Last(run).ws)
    ensures |Last(run).t.pages| <= Last(run).t.fetched <= c.maxUrls.value
  {
    BooksAlways(c, run);
  }

  // ----- the final report -----

  function UrlsDiscovered(s: State): int { s.t.discovered + 1 }

  lemma FinishedCounts(s: State)
    requires Crew(s) && Finished(s)
    ensures Count(Reservation, s.ws) == Count(Logger, s.ws) == Count(Untallied, s.ws) == Count(Unsettled, s.ws) == 0
    ensures Count(Seeded, s.ws) == 1 && Count(Looker, s.ws) == 0
    ensures Count(Dropper, s.ws) <= s.Workers()
  {
    CountZero(Reservation, s.ws);
    CountZero(Logger, s.ws);
    CountZero(Untallied, s.ws);
    CountZero(Unsettled, s.ws);
    FinishedRest(s);
  }

  lemma FinishedRest(s: State)
    requires Crew(s) && Finished(s)
    ensures Count(Seeded, s.ws) == 1 && Count(Looker, s.ws) == 0
    ensures Count(Dropper, s.ws) <= s.Workers()
  {
    CountZero(Looker, s.ws);
    CountAtMostWorkers(Dropper, s.ws);
    CountOnlyFirst(Seeded, s.ws);
  }

  // `urls_fetched` counts the pages exactly when a budget is set or there are no pages.
  lemma FetchedReport(c: Config, run: seq<State>)
    requires Counted(c, run) && Finished(Last(run))
    ensures (Last(run).t.fetched == |Last(run).t.pages|) <==> (c.maxUrls.Some? || Last(run).t.pages == [])
    ensures Last(run).t.errors == |Last(run).t.errorLog|
  {
    BooksAlways(c, run);
    AlertAlways(c, run);
    FinishedCounts(Last(run));
  }

  // Every URL found ends as a page, an error, a skip, a budget drop or left in the
  // queue. `urls_discovered` with its "+1 for the seed" is that total exactly when
  // the session started from one item: the restored queue plus the seed, if new.
  lemma Conservation(c: Config, run: seq<State>)
    requires Counted(c, run) && Finished(Last(run))
    ensures
      var s := Last(run);
      var roots := |run[0].f.queue| + Bit(Accepted(c, run[0]));
      && s.t.discovered + roots == |s.t.pages| + |s.t.errorLog| + s.t.skipped + s.h.dropped + |s.f.queue|
      && (UrlsDiscovered(s) == |s.t.pages| + s.t.errors + s.t.skipped + s.h.dropped + |s.f.queue| <==> roots == 1)
      && 0 <= s.h.dropped <= s.Workers()
      && (!s.f.stopped ==> s.h.dropped == 0 && s.f.queue == multiset{})
  {
    var s := Last(run);
    BooksAlways(c, run);
    AlertAlways(c, run);
    FinishedCounts(s);
    if !s.f.stopped { DroppersStop(s); }
  }

  lemma DroppersStop(s: State)
    requires Crew(s) && Finished(s) && StopSettled(s) && !s.f.stopped
    ensures Count(Dropper, s.ws) == 0
  {
    forall i | 0 <= i < |s.ws| ensures Weight(Dropper, s.ws[i]) == 0 { CountAtLeast(AfterStop, s.ws, i); }
    CountZero(Dropper, s.ws);
  }
}
