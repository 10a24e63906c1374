// Every crawl ends, under every scheduler. The only assumptions are that a fetch
// ends and that compare-exchanges do not fail spuriously for ever; nothing is
// assumed about the site, because fingerprints are 64-bit.
module Termination {
  import opened Prelude
  import opened Protocol
  import opened Census
  import opened Wakeups

  const FINGERPRINTS: nat := 0x1_0000_0000_0000_0000

  // ----- the rank of a state, most significant first -----

  //   unseen    fingerprints `visited` does not hold yet
  //   unfetched items queued, in hand or being pushed whose response is still to come
  //   labour    steps left on items
  //   stale     compare-exchanges bound to fail
  //   tokens    undelivered wake-ups: the stored permit, woken futures
  //   patience  steps left before parking
  datatype Rank = Rank(unseen: int, unfetched: nat, labour: nat, stale: nat, tokens: nat, patience: nat)

  function RankOf(s: State): Rank {
    Rank(FINGERPRINTS - |s.f.visited|, |s.f.queue| + Count(Unfetched, s.ws),
         QUEUED * |s.f.queue| + Count(Labour, s.ws), Count(Stale(s.t.fetched), s.ws),
         Bit(s.f.permit) + Count(Token, s.ws), Count(Patience, s.ws))
  }

  predicate Below(a: Rank, b: Rank) {
    a.unseen < b.unseen || (a.unseen == b.unseen && (
      a.unfetched < b.unfetched || (a.unfetched == b.unfetched && (
        a.labour < b.labour || (a.labour == b.labour && (
          a.stale < b.stale || (a.stale == b.stale && (
            a.tokens < b.tokens || (a.tokens == b.tokens && a.patience < b.patience)))))))))
  }

  // `visited` cannot outgrow 64 bits.
  lemma {:induction false} VisitedBounded(visited: set<Fp>, n: nat)
    requires n <= FINGERPRINTS && forall fp :: fp in visited ==> fp as int < n
    ensures |visited| <= n
  {
    if n > 0 {
      var top := (n - 1) as Fp;
      VisitedBounded(visited - {top}, n - 1);
      if top in visited { assert visited == (visited - {top}) + {top}; }
      else { assert visited == visited - {top}; }
    } else {
      assert visited == {};
    }
  }

  // ----- what one move does to the rank, seen from the moving thread -----

  function Unfetched1(s: State, p: Phase): int { |s.f.queue| + Bit(IsUnfetched(p)) }

  function Labour1(s: State, p: Phase): int { QUEUED * |s.f.queue| + LabourOf(p) }

  function Tokens1(s: State, p: Phase): int { Bit(s.f.permit) + Bit(IsToken(p)) }

  predicate Works(s: State, was: Phase, t: State, p: Phase) {
    && s.f.visited <= t.f.visited
    && (s.f.visited != t.f.visited
        || Unfetched1(t, p) < Unfetched1(s, was)
        || (Unfetched1(t, p) == Unfetched1(s, was) && Labour1(t, p) < Labour1(s, was)))
  }

  // Only the loop inside `pop` and a failed compare-exchange leave all of that alone.
  predicate Retries(s: State, was: Phase, t: State, p: Phase) {
    && t.ws == s.ws && t.f.visited == s.f.visited && t.t.fetched == s.t.fetched
    && Unfetched1(t, p) == Unfetched1(s, was) && Labour1(t, p) == Labour1(s, was)
    && (Bit(IsStale(p, s.t.fetched)) < Bit(IsStale(was, s.t.fetched))
        || (IsStale(p, s.t.fetched) == IsStale(was, s.t.fetched)
            && (Tokens1(t, p) < Tokens1(s, was)
                || (Tokens1(t, p) == Tokens1(s, was) && PatienceIn(p) < PatienceIn(was)))))
  }

  predicate Progress(s: State, was: Phase, t: State, p: Phase) { Works(s, was, t, p) || Retries(s, was, t, p) }

  lemma PopProgress(s: State, at: PopStage, o: Oracle)
    requires PopEnabled(s, at, o)
    ensures var (p, t) := MovePop(s, at, o); Progress(s, Pop(at), t, p)
  {
  }

  lemma AdmitProgress(c: Config, s: State, item: Item, task: Task, o: Oracle)
    requires IsAdmission(task) && (task.Reserving? ==> !o.flag)
    ensures var (p, t) := MoveAdmit(c, s, item, task, o); Progress(s, Busy(item, task), t, p)
  {
  }

  lemma FetchProgress(c: Config, s: State, item: Item, task: Task, o: Oracle)
    requires IsRecording(task)
    ensures var (p, t) := MoveFetch(c, s, item, task, o); Works(s, Busy(item, task), t, p)
  {
    if task.Fetching? || task.Answered? || task.Scoping? { AnswerProgress(c, s, item, task, o); }
  }

  lemma AnswerProgress(c: Config, s: State, item: Item, task: Task, o: Oracle)
    requires task.Fetching? || task.Answered? || task.Scoping?
    ensures var (p, t) := MoveFetch(c, s, item, task, o); Works(s, Busy(item, task), t, p)
  {
  }

  lemma PushProgress(c: Config, s: State, item: Item, task: Task, o: Oracle)
    requires TaskEnabled(c, s, item, task, o) && task.Pushing?
    ensures var (p, t) := MoveTask(c, s, item, task, o); Works(s, Busy(item, task), t, p)
  {
  }

  lemma LinkProgress(c: Config, s: State, item: Item, e: Expansion)
    ensures var (p, t) := MoveLink(c, s, item, e); Works(s, Busy(item, Expanding(e)), t, p)
  {
  }

  lemma PlainProgress(c: Config, s: State, item: Item, task: Task, o: Oracle)
    requires TaskEnabled(c, s, item, task, o) && IsPlain(task)
    ensures var (p, t) := MoveTask(c, s, item, task, o); Works(s, Busy(item, task), t, p)
  {
  }

  lemma TaskProgress(c: Config, s: State, item: Item, task: Task, o: Oracle)
    requires TaskEnabled(c, s, item, task, o) && (task.Reserving? ==> !o.flag)
    ensures var (p, t) := MoveTask(c, s, item, task, o); Progress(s, Busy(item, task), t, p)
  {
    if task.Pushing? { PushProgress(c, s, item, task, o); }
    else if task.Expanding? { LinkProgress(c, s, item, task.e); }
    else if IsPlain(task) { PlainProgress(c, s, item, task, o); }
    else if IsAdmission(task) { AdmitProgress(c, s, item, task, o); }
    else { FetchProgress(c, s, item, task, o); }
  }

  // A step whose compare-exchange, if it is one, does not fail spuriously.
  predicate Strong(s: State, w: nat, o: Oracle) {
    w < |s.ws| && (s.ws[w].Busy? && s.ws[w].task.Reserving? ==> !o.flag)
  }

  lemma MoveProgress(c: Config, s: State, w: nat, o: Oracle)
    requires Enabled(c, s, w, o) && Strong(s, w, o)
    ensures var (p, t) := Move(c, s, w, o); Progress(s, s.ws[w], t, p)
  {
    match s.ws[w]
    case Pop(at) => PopProgress(s, at, o);
    case Busy(item, task) => TaskProgress(c, s, item, task, o);
    case _ => LoopProgress(c, s, w, o);
  }

  lemma LoopProgress(c: Config, s: State, w: nat, o: Oracle)
    requires Enabled(c, s, w, o) && !s.ws[w].Pop? && !s.ws[w].Busy?
    ensures var (p, t) := Move(c, s, w, o); Progress(s, s.ws[w], t, p)
  {
    if s.ws[w].Seeding? { SeedProgress(c, s, w, o); }
  }

  lemma SeedProgress(c: Config, s: State, w: nat, o: Oracle)
    requires Enabled(c, s, w, o) && s.ws[w].Seeding?
    ensures var (p, t) := Move(c, s, w, o); Progress(s, s.ws[w], t, p)
  {
  }

  // ----- every step goes down -----

  lemma MoreVisited(a: set<Fp>, b: set<Fp>)
    requires a <= b
    ensures a == b || |a| < |b|
  {
    assert b == a + (b - a);
    if a != b { var fp :| fp in b - a; }
  }

  lemma WorksBelow(s: State, w: nat, pick: nat, t: State, p: Phase)
    requires w < |s.ws| && Works(s, s.ws[w], t, p) && Disturbed(s.ws, t.ws, w, pick)
    ensures Below(RankOf(t.(ws := t.ws[w := p])), RankOf(s))
  {
    MoreVisited(s.f.visited, t.f.visited);
    WorkShifts(s, w, pick, t, p);
  }

  lemma WorkShifts(s: State, w: nat, pick: nat, t: State, p: Phase)
    requires w < |s.ws| && Disturbed(s.ws, t.ws, w, pick)
    ensures var (r, r') := (RankOf(s), RankOf(t.(ws := t.ws[w := p])));
            && r'.unfetched - r.unfetched == Unfetched1(t, p) - Unfetched1(s, s.ws[w])
            && r'.labour - r.labour == Labour1(t, p) - Labour1(s, s.ws[w])
  {
    Recount(Unfetched, s.ws, t.ws, w, pick, p);
    Recount(Labour, s.ws, t.ws, w, pick, p);
  }

  lemma RetriesBelow(s: State, w: nat, t: State, p: Phase)
    requires w < |s.ws| && Retries(s, s.ws[w], t, p)
    ensures Below(RankOf(t.(ws := t.ws[w := p])), RankOf(s))
  {
    CountUpdate(Unfetched, s.ws, w, p);
    CountUpdate(Labour, s.ws, w, p);
    LowCounts(s, w, p);
  }

  lemma LowCounts(s: State, w: nat, p: Phase)
    requires w < |s.ws|
    ensures Count(Stale(s.t.fetched), s.ws[w := p])
         == Count(Stale(s.t.fetched), s.ws) + Bit(IsStale(p, s.t.fetched)) - Bit(IsStale(s.ws[w], s.t.fetched))
    ensures Count(Token, s.ws[w := p]) == Count(Token, s.ws) + Bit(IsToken(p)) - Bit(IsToken(s.ws[w]))
    ensures Count(Patience, s.ws[w := p]) == Count(Patience, s.ws) + PatienceIn(p) - PatienceIn(s.ws[w])
  {
    CountUpdate(Stale(s.t.fetched), s.ws, w, p);
    CountUpdate(Token, s.ws, w, p);
    CountUpdate(Patience, s.ws, w, p);
  }

  lemma StepBelow(c: Config, s: State, w: nat, o: Oracle)
    requires Enabled(c, s, w, o) && Strong(s, w, o)
    ensures Below(RankOf(Step(c, s, w, o)), RankOf(s)) && RankOf(s).unseen >= 0
  {
    var (p, t) := Move(c, s, w, o);
    MoveProgress(c, s, w, o);
    MoveDisturbs(c, s, w, o);
    VisitedBounded(s.f.visited, FINGERPRINTS);
    if Works(s, s.ws[w], t, p) { WorksBelow(s, w, o.pick, t, p); } else { RetriesBelow(s, w, t, p); }
  }

  // ----- no run is infinite -----

  ghost predicate StrongNext(c: Config, s: State, s': State) {
    exists w: nat, o: Oracle :: Enabled(c, s, w, o) && Strong(s, w, o) && s' == Step(c, s, w, o)
  }

  lemma StrongNextBelow(c: Config, s: State, s': State)
    requires StrongNext(c, s, s')
    ensures Below(RankOf(s'), RankOf(s)) && RankOf(s).unseen >= 0
  {
    var w: nat, o :| Enabled(c, s, w, o) && Strong(s, w, o) && s' == Step(c, s, w, o);
    StepBelow(c, s, w, o);
  }

  // A compare-exchange that fails spuriously changes nothing at all.
  lemma SpuriousStays(c: Config, s: State, w: nat, o: Oracle)
    requires Enabled(c, s, w, o) && !Strong(s, w, o)
    ensures Step(c, s, w, o) == s || StrongNext(c, s, Step(c, s, w, o))
  {
    var calm := o.(flag := false);
    if Step(c, s, w, calm) == Step(c, s, w, o) {
      assert Enabled(c, s, w, calm) && Strong(s, w, calm);
    } else {
      assert Step(c, s, w, o).ws == s.ws;
    }
  }

  lemma NextIsStrongOrStays(c: Config, s: State, s': State)
    requires Next(c, s, s')
    ensures s' == s || StrongNext(c, s, s')
  {
    var w: nat, o :| Enabled(c, s, w, o) && s' == Step(c, s, w, o);
    if !Strong(s, w, o) { SpuriousStays(c, s, w, o); }
  }

  ghost predicate CanGo(c: Config, s: State) { exists s' :: StrongNext(c, s, s') }

  ghost predicate Goes(c: Config, run: nat -> State, i: nat) { StrongNext(c, run(i), run(i + 1)) }

  ghost predicate Moves(c: Config, run: nat -> State, i: nat) { Next(c, run(i), run(i + 1)) }

  ghost predicate GoesAfter(c: Config, run: nat -> State, i: nat) { exists j :: j >= i && Goes(c, run, j) }

  // A scheduler may pick any thread and any oracle. It only has to pick something while
  // something is enabled, and must not let compare-exchanges fail spuriously for ever.
  ghost predicate Schedule(c: Config, run: nat -> State) {
    && (forall i: nat {:trigger Moves(c, run, i)} :: CanGo(c, run(i)) ==> Moves(c, run, i))
    && (forall i: nat {:trigger GoesAfter(c, run, i)} :: CanGo(c, run(i)) ==> GoesAfter(c, run, i))
  }

  // ----- ranks cannot go down for ever -----

  // A position that goes lowers the rank; an open one that does not go leaves everything
  // as it is, and a later one goes.
  ghost predicate Descends(open: nat -> bool, goes: nat -> bool, rank: nat -> Rank, k: nat) {
    && (goes(k) ==> Below(rank(k + 1), rank(k)) && rank(k).unseen >= 0)
    && (open(k) && !goes(k) ==> open(k + 1) && rank(k + 1) == rank(k))
    && (open(k) ==> exists m: nat :: m >= k && goes(m))
  }

  ghost predicate Descending(open: nat -> bool, goes: nat -> bool, rank: nat -> Rank) {
    forall k: nat :: Descends(open, goes, rank, k)
  }

  lemma {:induction false} NextGoes(open: nat -> bool, goes: nat -> bool, rank: nat -> Rank, i: nat, m: nat) returns (j: nat)
    requires Descending(open, goes, rank) && open(i) && i <= m && goes(m)
    ensures i <= j && goes(j) && rank(j) == rank(i)
    ensures forall k {:trigger open(k)} :: i <= k <= j ==> open(k)
    decreases m - i
  {
    j := i;
    assert Descends(open, goes, rank, i);
    if !goes(i) { j := NextGoes(open, goes, rank, i + 1, m); }
  }

  lemma {:induction false} Descent(open: nat -> bool, goes: nat -> bool, rank: nat -> Rank, i: nat) returns (j: nat)
    requires Descending(open, goes, rank)
    ensures j >= i && !open(j)
    ensures forall k {:trigger open(k)} :: i <= k < j ==> open(k)
    decreases rank(i).unseen, rank(i).unfetched, rank(i).labour, rank(i).stale, rank(i).tokens, rank(i).patience
  {
    j := i;
    if open(i) {
      assert Descends(open, goes, rank, i);
      var m: nat :| m >= i && goes(m);
      var next := NextGoes(open, goes, rank, i, m);
      assert Descends(open, goes, rank, next);
      j := Descent(open, goes, rank, next + 1);
    }
  }

  ghost predicate Open(c: Config, run: nat -> State, k: nat) { CanGo(c, run(k)) }

  lemma GoingLowers(c: Config, run: nat -> State, k: nat)
    requires Goes(c, run, k)
    ensures Below(RankOf(run(k + 1)), RankOf(run(k))) && RankOf(run(k)).unseen >= 0
  {
    StrongNextBelow(c, run(k), run(k + 1));
  }

  lemma StayingKeeps(c: Config, run: nat -> State, k: nat)
    requires Schedule(c, run) && Open(c, run, k) && !Goes(c, run, k)
    ensures Open(c, run, k + 1) && RankOf(run(k + 1)) == RankOf(run(k))
  {
    assert Moves(c, run, k);
    NextIsStrongOrStays(c, run(k), run(k + 1));
  }

  lemma GoesLater(c: Config, run: nat -> State, k: nat) returns (m: nat)
    requires Schedule(c, run) && Open(c, run, k)
    ensures m >= k && Goes(c, run, m)
  {
    assert GoesAfter(c, run, k);
    m :| m >= k && Goes(c, run, m);
  }

  ghost function OpenAt(c: Config, run: nat -> State): nat -> bool { (k: nat) => Open(c, run, k) }

  ghost function GoesAt(c: Config, run: nat -> State): nat -> bool { (k: nat) => Goes(c, run, k) }

  ghost function RankAt(run: nat -> State): nat -> Rank { (k: nat) => RankOf(run(k)) }

  lemma ScheduleDescends(c: Config, run: nat -> State, k: nat)
    requires Schedule(c, run)
    ensures Descends(OpenAt(c, run), GoesAt(c, run), RankAt(run), k)
  {
    if Goes(c, run, k) { GoingLowers(c, run, k); }
    else if Open(c, run, k) { StayingKeeps(c, run, k); }
    if Open(c, run, k) {
      var m := GoesLater(c, run, k);
      assert GoesAt(c, run)(m);
    }
  }

  // From any state at all, a schedule comes to a state in which nothing can go on.
  lemma RunStops(c: Config, run: nat -> State) returns (j: nat)
    requires Schedule(c, run)
    ensures !CanGo(c, run(j)) && forall k {:trigger Moves(c, run, k)} :: 0 <= k < j ==> Moves(c, run, k)
  {
    var open := OpenAt(c, run);
    forall k: nat ensures Descends(open, GoesAt(c, run), RankAt(run), k) { ScheduleDescends(c, run, k); }
    j := Descent(open, GoesAt(c, run), RankAt(run), 0);
    assert !open(j);
    forall k {:trigger Moves(c, run, k)} | 0 <= k < j ensures Moves(c, run, k) {
      assert open(k);
      OpenMoves(c, run, k);
    }
  }

  lemma OpenMoves(c: Config, run: nat -> State, k: nat)
    requires Schedule(c, run) && Open(c, run, k)
    ensures Moves(c, run, k)
  {
  }

  lemma CanGoOn(c: Config, run: seq<State>)
    requires Session(c, run) && c.Valid() && !Finished(Last(run))
    ensures CanGo(c, Last(run))
  {
    NoDeadlock(c, run);
    var w: nat, o :| Enabled(c, Last(run), w, o) && !o.flag;
    assert StrongNext(c, Last(run), Step(c, Last(run), w, o));
  }

  // Whatever the schedule, all workers leave.
  lemma CrawlEnds(c: Config, run: nat -> State) returns (end: nat)
    requires c.Valid() && IsStart(c, run(0)) && Schedule(c, run)
    ensures Finished(run(end))
  {
    end := RunStops(c, run);
    var prefix := seq(end + 1, i requires 0 <= i <= end => run(i));
    forall i | 0 < i < |prefix| ensures Next(c, prefix[i - 1], prefix[i]) {
      assert Moves(c, run, i - 1);
    }
    if !Finished(Last(prefix)) { CanGoOn(c, prefix); }
  }
}
