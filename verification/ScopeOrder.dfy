// "No item below the seed exists before the seed was processed": true of a fresh
// store, and exactly of the tables without a row that could be expanded first.
module ScopeOrder {
  import opened Prelude
  import opened Protocol
  import opened Census
  import opened Wakeups
  import opened Recovery
  import opened Coverage
  import opened Scripts
  import Accounting
  import Drops

  // A response came in for an item of depth 0.
  predicate RootAnswered(s: State) { exists a :: a in s.h.answers && a.0.1 == 0 && a.1.Some? }

  // Pages below the seed's level are expanded only after that.
  predicate Ordered(s: State) { forall e :: e in s.h.expanded && e.item.depth > 0 ==> RootAnswered(s) }

  // A session that `with_store` begins on these tables, with a history of its own.
  ghost predicate SessionOn(c: Config, d: Tables, run: seq<State>) {
    IsRun(c, run) && exists n: nat, m: nat, h: History :: StartsOn(c, d, n, m, h, run[0])
  }

  ghost predicate StartsOn(c: Config, d: Tables, n: nat, m: nat, h: History, s: State) {
    && n >= 1 && IsMaxSeq(d.rows, m) && h.answers == {} && h.expanded == {} && h.dropped == 0
    && s == Start(c, n, Requeue(d), m + 1, h)
  }

  ghost predicate AlwaysOrdered(c: Config, d: Tables) {
    forall run :: SessionOn(c, d, run) ==> Ordered(Last(run))
  }

  // Below the seed, and shallow enough for its links to be looked at.
  predicate Expandable(c: Config, item: Item) { 0 < item.depth < c.maxDepth }

  predicate NothingExpandable(c: Config, d: Tables) {
    forall fp :: fp in d.rows ==> !Expandable(c, d.rows[fp].item)
  }

  // ----- without such rows -----

  predicate Opening(task: Task) { task.Scoping? || task.Expanding? || task.Pushing? || task.Tallying? }

  // About to look at links below the seed, or at those of the seed after its answer.
  predicate Deep(c: Config, p: Phase) {
    match p
    case Seeding(child, _) => child.depth > 0
    case Busy(item, task) => Expandable(c, item) || Opening(task) || (item.depth == 0 && HasPage(task))
    case _ => false
  }

  // Whatever lies below the seed's level came out of an answered page.
  predicate RootFirst(c: Config, s: State) {
    && (forall i :: 0 <= i < |s.ws| && Deep(c, s.ws[i]) ==> RootAnswered(s))
    && (forall item :: item in s.f.queue && Expandable(c, item) ==> RootAnswered(s))
    && (s.h.expanded != {} ==> RootAnswered(s))
  }

  lemma AnswersStay(s: State, t: State)
    requires s.h.answers <= t.h.answers && RootAnswered(s)
    ensures RootAnswered(t)
  {
    var a :| a in s.h.answers && a.0.1 == 0 && a.1.Some?;
    assert a in t.h.answers;
  }

  // What a thread has in hand after its move.
  lemma MoveDeep(c: Config, s: State, w: nat, o: Oracle)
    requires Enabled(c, s, w, o) && RootFirst(c, s) && Deep(c, Move(c, s, w, o).0)
    ensures RootAnswered(Move(c, s, w, o).1)
  {
    var t := Move(c, s, w, o).1;
    MoveGrows(c, s, w, o);
    if RootAnswered(s) { AnswersStay(s, t); } else { FirstAnswer(c, s, w, o); }
  }

  // Only the fetch of a page of depth 0 can be the first.
  lemma FirstAnswer(c: Config, s: State, w: nat, o: Oracle)
    requires Enabled(c, s, w, o) && RootFirst(c, s) && Deep(c, Move(c, s, w, o).0) && !RootAnswered(s)
    ensures RootAnswered(Move(c, s, w, o).1)
  {
    assert !Deep(c, s.ws[w]);
    if s.ws[w].Busy? { FirstIsFetch(c, s, s.ws[w].item, s.ws[w].task, o); }
    if s.ws[w].Busy? && s.ws[w].task.Fetching? {
      assert (Key(s.ws[w].item), o.answer) in Move(c, s, w, o).1.h.answers;
    }
  }

  lemma FirstIsFetch(c: Config, s: State, item: Item, task: Task, o: Oracle)
    requires TaskEnabled(c, s, item, task, o) && !Deep(c, Busy(item, task)) && Deep(c, MoveTask(c, s, item, task, o).0)
    ensures task.Fetching? && item.depth == 0 && o.answer.Some?
  {
  }

  lemma RootFirstStep(c: Config, s: State, w: nat, o: Oracle)
    requires Enabled(c, s, w, o) && RootFirst(c, s)
    ensures RootFirst(c, Step(c, s, w, o))
  {
    var (p, t) := Move(c, s, w, o);
    var s' := Step(c, s, w, o);
    MoveDisturbs(c, s, w, o);
    MoveGrows(c, s, w, o);
    if Deep(c, p) { MoveDeep(c, s, w, o); }
    if RootAnswered(s) { AnswersStay(s, t); }
    forall i | 0 <= i < |s'.ws| && Deep(c, s'.ws[i]) ensures RootAnswered(s') {
      if i != w { assert Deep(c, s.ws[i]); }
    }
    QueueDeep(c, s, w, o);
  }

  lemma QueueDeep(c: Config, s: State, w: nat, o: Oracle)
    requires Enabled(c, s, w, o) && RootFirst(c, s)
    ensures var t := Move(c, s, w, o).1;
      (t.h.expanded != {} ==> RootAnswered(s)) && forall item :: item in t.f.queue && Expandable(c, item) ==> RootAnswered(s)
  {
    MoveAfter(c, s, w, o);
    var turn := TurnOf(c, s, s.ws[w], o);
    if turn.Enqueues? || turn.Opens? { SourceIsDeep(c, s, s.ws[w], o); }
  }

  lemma SourceIsDeep(c: Config, s: State, p: Phase, o: Oracle)
    ensures var turn := TurnOf(c, s, p, o);
      (turn.Enqueues? ==> turn.child.depth == 0 || Deep(c, p)) && (turn.Opens? ==> Deep(c, p))
  {
  }

  lemma {:induction false} RootFirstAlways(c: Config, d: Tables, run: seq<State>)
    requires SessionOn(c, d, run) && NothingExpandable(c, d)
    ensures RootFirst(c, Last(run))
  {
    if |run| == 1 {
      var n: nat, m: nat, h: History :| StartsOn(c, d, n, m, h, run[0]);
      SpawnShape(n);
    } else {
      var w, o := LastStep(c, run);
      RootFirstAlways(c, d, run[..|run| - 1]);
      RootFirstStep(c, run[|run| - 2], w, o);
    }
  }

  lemma IsCounted(c: Config, d: Tables, run: seq<State>)
    requires SessionOn(c, d, run)
    ensures Accounting.Counted(c, run)
  {
    var n: nat, m: nat, h: History :| StartsOn(c, d, n, m, h, run[0]);
  }

  // With a budget of nothing, no page is ever expanded.
  lemma {:induction false} NothingOpened(c: Config, d: Tables, run: seq<State>)
    requires SessionOn(c, d, run) && c.maxUrls == Some(0)
    ensures Last(run).h.expanded == {}
  {
    if |run| > 1 {
      var before := run[..|run| - 1];
      var w, o := LastStep(c, run);
      NothingOpened(c, d, before);
      IsCounted(c, d, before);
      Drops.TurnedAlways(c, before);
      AlertAlways(c, before);
      TurnedOpensNothing(c, Last(before), w, o);
    }
  }

  lemma TurnedOpensNothing(c: Config, s: State, w: nat, o: Oracle)
    requires Crew(s) && Drops.AllTurned(s) && Enabled(c, s, w, o)
    ensures Step(c, s, w, o).h.expanded == s.h.expanded
  {
    assert MainPhase(s.ws[w]) || Drops.Turned(s.ws[w]);
    MoveAfter(c, s, w, o);
  }

  // ----- with one -----

  predicate Resting(p: Phase) { p.Booted? || p.Top? || (p.Busy? && p.task.Leasing?) }

  predicate AllResting(ws: seq<Phase>) { forall i :: 0 <= i < |ws| ==> Resting(ws[i]) }

  // Workers k, k + 1, ... take an item each until one holds the target.
  lemma {:induction false} PopUntil(c: Config, run: seq<State>, k: nat, target: Item)
    returns (more: seq<State>, w: nat)
    requires Session(c, run) && At(run, 0, Booted) && HasBudget(c, Last(run)) && !Last(run).f.stopped
    requires AllResting(Last(run).ws)
    requires 1 <= k && forall i :: k <= i < |Last(run).ws| ==> Last(run).ws[i].Top?
    requires target in Last(run).f.queue && |Last(run).f.queue| <= |Last(run).ws| - k
    ensures Origin(c, more) == Some(run[0]) && At(more, w, Busy(target, Leasing)) && AllResting(Last(more).ws)
    ensures Last(more).h.answers == Last(run).h.answers && HasBudget(c, Last(more))
    decreases |Last(run).f.queue|
  {
    var queue := Last(run).f.queue;
    var top := QueueHasTop(queue);
    assert |queue| > 0 && |queue - multiset{top}| == |queue| - 1;
    more := PopItem(c, run, k, top);
    w := k;
    if top != target { more, w := PopUntil(c, more, k + 1, target); }
  }

  // Main is done, whether the seed is new or not.
  lemma Boot(c: Config, run: seq<State>, n: nat) returns (more: seq<State>)
    requires Session(c, run) && Last(run).ws == Spawn(n) && !Last(run).f.stopped
    ensures Origin(c, more) == Some(run[0]) && Last(more).ws == ReadyCrew(n) && !Last(more).f.stopped
    ensures Last(more).h.answers == Last(run).h.answers && Last(more).t.fetched == Last(run).t.fetched
    ensures Last(run).f.queue <= Last(more).f.queue && |Last(more).f.queue| <= |Last(run).f.queue| + 1
  {
    if c.fp(c.Norm(c.seed)) in Last(run).f.visited {
      more := SkipSeed(c, run, n);
    } else {
      var child;
      more, child := PushSeed(c, run, n);
    }
  }

  // As many workers as rows, and one for the seed.
  lemma RowsLoaded(c: Config, d: Tables, fp: Fp) returns (run: seq<State>, n: nat)
    requires fp in d.rows
    ensures |run| == 1 && SessionOn(c, d, run) && Origin(c, run) == Some(run[0])
    ensures Last(run).ws == Spawn(n) && !Last(run).f.stopped && Last(run).h.answers == {} && Last(run).t.fetched == 0
    ensures d.rows[fp].item in Last(run).f.queue && |Last(run).f.queue| == n - 1
  {
    var m := MaxSeqExists(d.rows);
    var h := History(0, {}, {}, {}, {}, {}, 0);
    n := |multiset(set k | k in Requeue(d).rows :: Requeue(d).rows[k].item)| + 1;
    run := [Start(c, n, Requeue(d), m + 1, h)];
    assert StartsOn(c, d, n, m, h, run[0]);
    assert Requeue(d).rows[fp].item == d.rows[fp].item;
  }

  // Such a row is taken and expanded before the seed is asked for.
  lemma DeepRowFirst(c: Config, d: Tables, fp: Fp) returns (run: seq<State>)
    requires c.Valid() && c.maxUrls != Some(0) && fp in d.rows && Expandable(c, d.rows[fp].item)
    ensures SessionOn(c, d, run) && !Ordered(Last(run))
  {
    var target := d.rows[fp].item;
    var start, n := RowsLoaded(c, d, fp);
    run := Boot(c, start, n);
    var w, e;
    run, w := PopUntil(c, run, 1, target);
    run, e := OpenPage(c, run, w, target, Response("", []));
    assert run[0] == start[0];
    assert e in Last(run).h.expanded;
  }

  // For every configuration and store: the order holds in all sessions exactly if nothing
  // may be fetched or no row left in the store could be expanded.
  lemma ScopeOrdering(c: Config, d: Tables)
    requires c.Valid()
    ensures AlwaysOrdered(c, d) <==> c.maxUrls == Some(0) || NothingExpandable(c, d)
  {
    if c.maxUrls == Some(0) || NothingExpandable(c, d) {
      forall run | SessionOn(c, d, run) ensures Ordered(Last(run)) {
        if c.maxUrls == Some(0) { NothingOpened(c, d, run); } else { RootFirstAlways(c, d, run); }
      }
    } else {
      var fp :| fp in d.rows && Expandable(c, d.rows[fp].item);
      var run := DeepRowFirst(c, d, fp);
    }
  }
}
