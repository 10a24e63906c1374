// What comes of what the environment says: a refused URL leaves nothing but a count, an
// answered one a page with the links of the answer, an unanswered one an entry in the
// error list (crates/engine/src/lib.rs:196-378). `run` is what one process did, `moves`
// says which thread made each step and what it read.
module Verdicts {
  import opened Prelude
  import opened Urls
  import opened Protocol
  import opened Census
  import opened Wakeups
  import opened Recovery
  import Accounting

  type Moves = seq<(nat, Oracle)>

  predicate StepAt(c: Config, run: seq<State>, moves: Moves, k: nat)
    requires k < |moves| < |run|
  {
    Enabled(c, run[k], moves[k].0, moves[k].1) && run[k + 1] == Step(c, run[k], moves[k].0, moves[k].1)
  }

  predicate Trace(c: Config, run: seq<State>, moves: Moves) {
    |run| == |moves| + 1 && forall k: nat :: k < |moves| ==> StepAt(c, run, moves, k)
  }

  // A process, on the tables of all processes before it.
  ghost predicate Process(c: Config, past: seq<State>, run: seq<State>, moves: Moves) {
    LongRun(c, past) && IsStart(c, Last(past)) && Trace(c, run, moves) && run[0] == Last(past)
  }

  // ----- the verdicts, by what a thread is asking and what it is told -----

  datatype Ruling = Refusal | Answer | Failure

  function RulingOn(p: Phase, o: Oracle): Option<Ruling> {
    if !p.Busy? then None
    else if p.task.Vetting? || p.task.Robots? then (if o.flag then None else Some(Refusal))
    else if p.task.Fetching? then Some(if o.answer.Some? then Answer else Failure)
    else None
  }

  predicate Gives(s: State, move: (nat, Oracle), r: Ruling) {
    move.0 < |s.ws| && RulingOn(s.ws[move.0], move.1) == Some(r)
  }

  // The steps at which it was given.
  function Times(run: seq<State>, moves: Moves, r: Ruling): set<nat> {
    set k: nat | k < |moves| && k < |run| && Gives(run[k], moves[k], r)
  }

  // ----- where a URL stands -----

  datatype Standing = Shelved | Passed | Missed | Opened | Closed

  predicate In(k: Standing, task: Task) {
    match k
    case Shelved => task.Skipping? || task == Deleting(Skipped)
    case Passed =>
      !task.Leasing? && !task.Acquiring? && !task.Vetting? && !task.Robots? && !task.Skipping?
      && task != Deleting(Skipped) && !task.Decrementing?
    case Missed => task.Releasing? || task.Erring? || task.Logging? || task == Deleting(Fetched)
    case Opened => task.Expanding? || task.Pushing? || task.Tallying? || task.Recording? || task == Deleting(Fetched)
    case Closed => task == Deleting(Fetched)
  }

  predicate HasAs(c: Config, p: Phase, fp: Fp, k: Standing) {
    p.Busy? && c.fp(p.item.url) == fp && In(k, p.task)
  }

  // Its row is deleted, or a thread has it at such a task.
  predicate StandsAs(c: Config, s: State, fp: Fp, k: Standing) {
    fp in s.h.done || exists u :: 0 <= u < |s.ws| && HasAs(c, s.ws[u], fp, k)
  }

  lemma OthersStay(c: Config, s: State, w: nat, o: Oracle, u: nat)
    requires Enabled(c, s, w, o) && u < |s.ws| && u != w && s.ws[u].Busy?
    ensures |Step(c, s, w, o).ws| == |s.ws| && Step(c, s, w, o).ws[u] == s.ws[u]
  {
    MoveDisturbs(c, s, w, o);
  }

  lemma AdmitStays(c: Config, s: State, item: Item, task: Task, o: Oracle, k: Standing)
    requires IsAdmission(task) && In(k, task)
    ensures var (p, t) := MoveAdmit(c, s, item, task, o); p.Busy? && p.item == item && In(k, p.task)
  {
  }

  lemma FetchStays(c: Config, s: State, item: Item, task: Task, o: Oracle, k: Standing)
    requires IsRecording(task) && In(k, task)
    ensures var (p, t) := MoveFetch(c, s, item, task, o); p.Busy? && p.item == item && In(k, p.task)
  {
  }

  // A task passes its item on to one of the same standing, until the row is deleted.
  lemma TaskStays(c: Config, s: State, item: Item, task: Task, o: Oracle, k: Standing)
    requires TaskEnabled(c, s, item, task, o) && In(k, task)
    ensures var (p, t) := MoveTask(c, s, item, task, o);
      p.Busy? && p.item == item && (In(k, p.task) || c.fp(item.url) in t.h.done)
  {
    if task.Expanding? {} else if task.Pushing? {} else if IsPlain(task) {}
    else if IsAdmission(task) { AdmitStays(c, s, item, task, o, k); }
    else { FetchStays(c, s, item, task, o, k); }
  }

  lemma StandingStays(c: Config, s: State, w: nat, o: Oracle, fp: Fp, k: Standing)
    requires Enabled(c, s, w, o) && StandsAs(c, s, fp, k)
    ensures StandsAs(c, Step(c, s, w, o), fp, k)
  {
    var s' := Step(c, s, w, o);
    if fp in s.h.done {
      StepHistory(c, s, s');
    } else {
      var u :| 0 <= u < |s.ws| && HasAs(c, s.ws[u], fp, k);
      if u == w {
        TaskStays(c, s, s.ws[w].item, s.ws[w].task, o, k);
        assert s'.ws[w] == Move(c, s, w, o).0;
      } else {
        OthersStay(c, s, w, o, u);
        assert HasAs(c, s'.ws[u], fp, k);
      }
    }
  }

  predicate InHand(p: Phase) { p.Busy? && !p.task.Decrementing? }

  lemma HandHasRow(c: Config, s: State, u: nat)
    requires Durable(c, s) && u < |s.ws| && InHand(s.ws[u])
    ensures HasRow(c, s.d, s.ws[u].item) && c.fp(s.ws[u].item.url) !in s.h.done
  {
    var item := s.ws[u].item;
    var fp := c.fp(item.url);
    HeldAtLeast(c, s.ws, Live(item), u);
    assert Total(c, s, Live(item)) == Bit(HasRow(c, s.d, item));
    assert Total(c, s, Unstored(fp)) + Settled(s, fp) == Bit(fp in s.f.visited);
  }

  // No two threads have the same URL in hand.
  lemma SoleHolder(c: Config, s: State, u: nat, v: nat)
    requires Durable(c, s) && u < |s.ws| && v < |s.ws| && InHand(s.ws[u]) && InHand(s.ws[v])
    requires c.fp(s.ws[u].item.url) == c.fp(s.ws[v].item.url)
    ensures u == v
  {
    HandHasRow(c, s, u);
    HandHasRow(c, s, v);
    var item := s.ws[u].item;
    assert Total(c, s, Live(item)) == Bit(HasRow(c, s.d, item));
    HeldUpdate(c, s.ws, Live(item), u, Top);
    HeldAtLeast(c, s.ws[u := Top], Live(item), v);
  }

  lemma StandingIsTask(c: Config, s: State, u: nat, k: Standing)
    requires Durable(c, s) && u < |s.ws| && InHand(s.ws[u]) && StandsAs(c, s, c.fp(s.ws[u].item.url), k)
    ensures In(k, s.ws[u].task)
  {
    HandHasRow(c, s, u);
    var v :| 0 <= v < |s.ws| && HasAs(c, s.ws[v], c.fp(s.ws[u].item.url), k);
    SoleHolder(c, s, u, v);
  }

  // ----- what a step records -----

  predicate Records(s: State, p: Phase, t: State) {
    && t.t.pages == s.t.pages
        + (if p.Busy? && p.task.Recording? then [PageRecord(p.item.url, p.item.depth, p.task.links)] else [])
    && t.t.errorLog == s.t.errorLog + (if p.Busy? && p.task.Logging? then [p.item.url] else [])
    && t.h.expanded == s.h.expanded
        + (if p.Busy? && p.task.Scoping? then {Expansion(p.item, s.scope, p.task.links, 0)} else {})
  }

  lemma StepRecords(c: Config, s: State, w: nat, o: Oracle)
    requires Enabled(c, s, w, o)
    ensures Records(s, s.ws[w], Step(c, s, w, o))
  {
    match s.ws[w]
    case Pop(at) =>
    case Busy(item, task) => TaskRecords(c, s, item, task, o);
    case _ =>
  }

  lemma AdmitRecords(c: Config, s: State, item: Item, task: Task, o: Oracle)
    requires IsAdmission(task)
    ensures Records(s, Busy(item, task), MoveAdmit(c, s, item, task, o).1)
  {
  }

  lemma TaskRecords(c: Config, s: State, item: Item, task: Task, o: Oracle)
    requires TaskEnabled(c, s, item, task, o)
    ensures Records(s, Busy(item, task), MoveTask(c, s, item, task, o).1)
  {
    if task.Expanding? {} else if task.Pushing? {} else if IsPlain(task) {}
    else if IsAdmission(task) { AdmitRecords(c, s, item, task, o); }
  }

  // ----- a URL of which nothing was recorded -----

  // No page and no error entry of this process carries it, and no expansion is new.
  predicate Traceless(c: Config, s: State, before: set<Expansion>, fp: Fp) {
    && (forall i :: 0 <= i < |s.t.pages| ==> c.fp(s.t.pages[i].url) != fp)
    && (forall i :: 0 <= i < |s.t.errorLog| ==> c.fp(s.t.errorLog[i]) != fp)
    && (forall e :: e in s.h.expanded && c.fp(e.item.url) == fp ==> e in before)
  }

  // Whatever is recorded is filed away next: its URL stands as Closed, or as Opened.
  ghost predicate Accounted(c: Config, s: State, before: set<Expansion>) {
    && (forall i :: 0 <= i < |s.t.pages| ==> StandsAs(c, s, c.fp(s.t.pages[i].url), Closed))
    && (forall i :: 0 <= i < |s.t.errorLog| ==> StandsAs(c, s, c.fp(s.t.errorLog[i]), Closed))
    && (forall e :: e in s.h.expanded ==> e in before || StandsAs(c, s, c.fp(e.item.url), Opened))
  }

  // Where the moving thread goes after it recorded something.
  lemma FiledNext(c: Config, s: State, w: nat, o: Oracle)
    requires Enabled(c, s, w, o) && s.ws[w].Busy?
    ensures var (p, s') := (s.ws[w], Step(c, s, w, o));
      && w < |s'.ws|
      && (p.task.Recording? || p.task.Logging? ==> s'.ws[w] == Busy(p.item, Deleting(Fetched)))
      && (p.task.Scoping? ==> s'.ws[w].Busy? && s'.ws[w].item == p.item && s'.ws[w].task.Expanding?)
  {
    MoveDisturbs(c, s, w, o);
  }

  lemma AccountedKept(c: Config, s: State, w: nat, o: Oracle, before: set<Expansion>)
    requires Enabled(c, s, w, o) && Accounted(c, s, before)
    ensures Accounted(c, Step(c, s, w, o), before)
  {
    var p, s' := s.ws[w], Step(c, s, w, o);
    StepRecords(c, s, w, o);
    if p.Busy? { FiledNext(c, s, w, o); }
    forall i | 0 <= i < |s'.t.pages| ensures StandsAs(c, s', c.fp(s'.t.pages[i].url), Closed) {
      if i < |s.t.pages| { StandingStays(c, s, w, o, c.fp(s.t.pages[i].url), Closed); }
      else { assert HasAs(c, s'.ws[w], c.fp(p.item.url), Closed); }
    }
    forall i | 0 <= i < |s'.t.errorLog| ensures StandsAs(c, s', c.fp(s'.t.errorLog[i]), Closed) {
      if i < |s.t.errorLog| { StandingStays(c, s, w, o, c.fp(s.t.errorLog[i]), Closed); }
      else { assert HasAs(c, s'.ws[w], c.fp(p.item.url), Closed); }
    }
    forall e | e in s'.h.expanded ensures e in before || StandsAs(c, s', c.fp(e.item.url), Opened) {
      if e in s.h.expanded {
        if e !in before { StandingStays(c, s, w, o, c.fp(e.item.url), Opened); }
      } else {
        assert HasAs(c, s'.ws[w], c.fp(p.item.url), Opened);
      }
    }
  }

  // Before the answer nothing is recorded.
  lemma UnansweredIsTraceless(c: Config, s: State, w: nat, before: set<Expansion>)
    requires Durable(c, s) && Accounted(c, s, before) && w < |s.ws| && s.ws[w].Busy? && BeforeFetch(s.ws[w].task)
    ensures Traceless(c, s, before, c.fp(s.ws[w].item.url))
  {
    var fp := c.fp(s.ws[w].item.url);
    if StandsAs(c, s, fp, Closed) { StandingIsTask(c, s, w, Closed); }
    if StandsAs(c, s, fp, Opened) { StandingIsTask(c, s, w, Opened); }
  }

  // What is shelved is never recorded.
  lemma TracelessKept(c: Config, s: State, w: nat, o: Oracle, before: set<Expansion>, fp: Fp)
    requires Durable(c, s) && Enabled(c, s, w, o) && StandsAs(c, s, fp, Shelved) && Traceless(c, s, before, fp)
    ensures Traceless(c, Step(c, s, w, o), before, fp)
  {
    StepRecords(c, s, w, o);
    if InHand(s.ws[w]) && c.fp(s.ws[w].item.url) == fp { StandingIsTask(c, s, w, Shelved); }
  }

  // ----- along a process -----

  lemma DurableAt(c: Config, past: seq<State>, run: seq<State>, moves: Moves, k: nat)
    requires Process(c, past, run, moves) && k < |run|
    ensures Durable(c, run[k]) && Accounted(c, run[k], run[0].h.expanded)
  {
    if k == 0 {
      DurableAlways(c, past);
    } else {
      DurableAt(c, past, run, moves, k - 1);
      assert StepAt(c, run, moves, k - 1);
      DurableStep(c, run[k - 1], moves[k - 1].0, moves[k - 1].1);
      AccountedKept(c, run[k - 1], moves[k - 1].0, moves[k - 1].1, run[0].h.expanded);
    }
  }

  lemma {:induction false} StandsOn(c: Config, run: seq<State>, moves: Moves, k: nat, j: nat, fp: Fp, k': Standing)
    requires Trace(c, run, moves) && k <= j < |run| && StandsAs(c, run[k], fp, k')
    ensures StandsAs(c, run[j], fp, k')
  {
    if k < j {
      StandsOn(c, run, moves, k, j - 1, fp, k');
      assert StepAt(c, run, moves, j - 1);
      StandingStays(c, run[j - 1], moves[j - 1].0, moves[j - 1].1, fp, k');
    }
  }

  // The item that step k is about.
  function Subject(run: seq<State>, moves: Moves, k: nat): Item
    requires k < |moves| < |run| && moves[k].0 < |run[k].ws| && run[k].ws[moves[k].0].Busy?
  {
    run[k].ws[moves[k].0].item
  }

  // Where a verdict leads.
  lemma RulingLeads(c: Config, s: State, w: nat, o: Oracle)
    requires Enabled(c, s, w, o) && s.ws[w].Busy?
    ensures var (p, s') := (s.ws[w], Step(c, s, w, o));
      && w < |s'.ws|
      && (RulingOn(p, o) == Some(Refusal) ==> s'.ws[w] == Busy(p.item, Skipping))
      && (p.task.Robots? && o.flag ==> s'.ws[w] == Busy(p.item, if c.maxUrls.Some? then Loading else Reserved))
      && (p.task.Fetching? ==> s'.ws[w] == Busy(p.item,
            if o.answer.Some? then Answered(o.answer.value) else if c.maxUrls.Some? then Releasing else Erring))
  {
    MoveDisturbs(c, s, w, o);
  }

  lemma RefusalShelves(c: Config, s: State, w: nat, o: Oracle, before: set<Expansion>)
    requires Durable(c, s) && Accounted(c, s, before) && Enabled(c, s, w, o) && RulingOn(s.ws[w], o) == Some(Refusal)
    ensures var fp := c.fp(s.ws[w].item.url);
      Traceless(c, Step(c, s, w, o), before, fp) && StandsAs(c, Step(c, s, w, o), fp, Shelved)
  {
    UnansweredIsTraceless(c, s, w, before);
    StepRecords(c, s, w, o);
    RulingLeads(c, s, w, o);
    assert HasAs(c, Step(c, s, w, o).ws[w], c.fp(s.ws[w].item.url), Shelved);
  }

  // A URL that the breaker or robots.txt refused leaves no page, no error entry and no
  // expansion in this process, ever.
  lemma {:induction false} RefusedLeavesNothing(c: Config, past: seq<State>, run: seq<State>, moves: Moves, k: nat, j: nat)
    requires Process(c, past, run, moves) && k < |moves| && k < j < |run| && Gives(run[k], moves[k], Refusal)
    ensures var fp := c.fp(Subject(run, moves, k).url);
      Traceless(c, run[j], run[0].h.expanded, fp) && StandsAs(c, run[j], fp, Shelved)
  {
    var (w, o) := moves[j - 1];
    var fp := c.fp(Subject(run, moves, k).url);
    assert StepAt(c, run, moves, j - 1);
    DurableAt(c, past, run, moves, j - 1);
    if j == k + 1 {
      RefusalShelves(c, run[k], w, o, run[0].h.expanded);
    } else {
      RefusedLeavesNothing(c, past, run, moves, k, j - 1);
      TracelessKept(c, run[j - 1], w, o, run[0].h.expanded, fp);
      StandingStays(c, run[j - 1], w, o, fp, Shelved);
    }
  }

  // A step in which robots.txt lets an item through, after the breaker did.
  predicate Admits(s: State, move: (nat, Oracle)) {
    move.0 < |s.ws| && s.ws[move.0].Busy? && s.ws[move.0].task.Robots? && move.1.flag
  }

  lemma AdmittedStands(c: Config, run: seq<State>, moves: Moves, k: nat, j: nat)
    requires Trace(c, run, moves) && k < |moves| && k < j < |run| && Admits(run[k], moves[k])
    ensures StandsAs(c, run[j], c.fp(Subject(run, moves, k).url), Passed)
  {
    var (w, o) := moves[k];
    var fp := c.fp(Subject(run, moves, k).url);
    assert StepAt(c, run, moves, k);
    RulingLeads(c, run[k], w, o);
    assert HasAs(c, run[k + 1].ws[w], fp, Passed);
    StandsOn(c, run, moves, k + 1, j, fp, Passed);
  }

  // A URL let through is not refused in the same process, neither before nor after; so it
  // is not among those counted as skipped.
  lemma AdmittedIsNotRefused(c: Config, past: seq<State>, run: seq<State>, moves: Moves, k: nat, j: nat)
    requires Process(c, past, run, moves) && k < |moves| && j < |moves|
    requires Admits(run[k], moves[k]) && Gives(run[j], moves[j], Refusal)
    ensures c.fp(Subject(run, moves, j).url) != c.fp(Subject(run, moves, k).url)
  {
    DurableAt(c, past, run, moves, j);
    DurableAt(c, past, run, moves, k);
    if c.fp(Subject(run, moves, j).url) == c.fp(Subject(run, moves, k).url) {
      if k < j {
        AdmittedStands(c, run, moves, k, j);
        StandingIsTask(c, run[j], moves[j].0, Passed);
      } else if j < k {
        RefusedLeavesNothing(c, past, run, moves, j, k);
        StandingIsTask(c, run[k], moves[k].0, Shelved);
      }
    }
  }

  // ----- the counters -----

  // What is counted of each verdict, and who is about to count it.
  function Counted(t: Stats, r: Ruling): int {
    match r case Refusal => t.skipped case Answer => |t.pages| case Failure => t.errors
  }

  function Counter(r: Ruling): Kind { match r case Refusal => Skipper case Answer => Carrier case Failure => Failer }

  predicate Tallies(s: State, was: Phase, o: Oracle, t: State, p: Phase, r: Ruling) {
    Counted(t.t, r) + Weight(Counter(r), p) == Counted(s.t, r) + Weight(Counter(r), was) + Bit(RulingOn(was, o) == Some(r))
  }

  lemma AdmitTallies(c: Config, s: State, item: Item, task: Task, o: Oracle, r: Ruling)
    requires IsAdmission(task)
    ensures var (p, t) := MoveAdmit(c, s, item, task, o); Tallies(s, Busy(item, task), o, t, p, r)
  {
  }

  lemma FetchTallies(c: Config, s: State, item: Item, task: Task, o: Oracle, r: Ruling)
    requires IsRecording(task)
    ensures var (p, t) := MoveFetch(c, s, item, task, o); Tallies(s, Busy(item, task), o, t, p, r)
  {
  }

  lemma PlainTallies(c: Config, s: State, item: Item, task: Task, o: Oracle, r: Ruling)
    requires TaskEnabled(c, s, item, task, o) && IsPlain(task)
    ensures var (p, t) := MoveTask(c, s, item, task, o); Tallies(s, Busy(item, task), o, t, p, r)
  {
  }

  lemma PushTallies(c: Config, s: State, item: Item, task: Task, o: Oracle, r: Ruling)
    requires TaskEnabled(c, s, item, task, o) && (task.Pushing? || task.Expanding?)
    ensures var (p, t) := MoveTask(c, s, item, task, o); Tallies(s, Busy(item, task), o, t, p, r)
  {
  }

  lemma TaskTallies(c: Config, s: State, item: Item, task: Task, o: Oracle, r: Ruling)
    requires TaskEnabled(c, s, item, task, o)
    ensures var (p, t) := MoveTask(c, s, item, task, o); Tallies(s, Busy(item, task), o, t, p, r)
  {
    if task.Pushing? || task.Expanding? { PushTallies(c, s, item, task, o, r); }
    else if IsPlain(task) { PlainTallies(c, s, item, task, o, r); }
    else if IsAdmission(task) { AdmitTallies(c, s, item, task, o, r); }
    else { FetchTallies(c, s, item, task, o, r); }
  }

  lemma IdleTallies(c: Config, s: State, w: nat, o: Oracle, r: Ruling)
    requires Enabled(c, s, w, o) && !s.ws[w].Busy?
    ensures var (p, t) := Move(c, s, w, o); Tallies(s, s.ws[w], o, t, p, r)
  {
    var (p, t) := Move(c, s, w, o);
    assert t.t == s.t && (p.Busy? ==> p.task == Leasing);
  }

  lemma StepTallies(c: Config, s: State, w: nat, o: Oracle, r: Ruling)
    requires Enabled(c, s, w, o)
    ensures var s' := Step(c, s, w, o);
      Counted(s'.t, r) + Count(Counter(r), s'.ws) == Counted(s.t, r) + Count(Counter(r), s.ws) + Bit(Gives(s, (w, o), r))
  {
    var (p, t) := Move(c, s, w, o);
    if s.ws[w].Busy? { TaskTallies(c, s, s.ws[w].item, s.ws[w].task, o, r); } else { IdleTallies(c, s, w, o, r); }
    MoveDisturbs(c, s, w, o);
    Moved(Counter(r), s.ws, t.ws, w, o.pick, p);
  }

  lemma OneMoreTime(run: seq<State>, moves: Moves, r: Ruling)
    requires |run| == |moves| + 1 && moves != []
    ensures |Times(run, moves, r)|
      == |Times(Front(run), Front(moves), r)| + Bit(Gives(run[|moves| - 1], Last(moves), r))
  {
    var k := |moves| - 1;
    var before, all := Times(Front(run), Front(moves), r), Times(run, moves, r);
    forall i: nat ensures i in all <==> i in before || (i == k && Gives(run[k], moves[k], r)) { FrontTimes(run, moves, r, i); }
    assert k !in before;
    assert all == if Gives(run[k], moves[k], r) then before + {k} else before;
  }

  lemma FrontTimes(run: seq<State>, moves: Moves, r: Ruling, i: nat)
    requires |run| == |moves| + 1 && moves != []
    ensures i in Times(run, moves, r)
      <==> i in Times(Front(run), Front(moves), r) || (i == |moves| - 1 && Gives(run[i], moves[i], r))
  {
    if i < |moves| - 1 { assert Front(run)[i] == run[i] && Front(moves)[i] == moves[i]; }
  }

  lemma TraceFront(c: Config, run: seq<State>, moves: Moves)
    requires Trace(c, run, moves) && moves != []
    ensures Trace(c, Front(run), Front(moves)) && Last(Front(run)) == run[|moves| - 1]
    ensures Enabled(c, run[|moves| - 1], Last(moves).0, Last(moves).1)
    ensures Last(run) == Step(c, run[|moves| - 1], Last(moves).0, Last(moves).1)
  {
    assert StepAt(c, run, moves, |moves| - 1);
    forall k: nat | k < |Front(moves)| ensures StepAt(c, Front(run), Front(moves), k) {
      assert StepAt(c, run, moves, k);
    }
  }

  lemma {:induction false} TalliedAlways(c: Config, run: seq<State>, moves: Moves, r: Ruling)
    requires Trace(c, run, moves) && IsStart(c, run[0])
    ensures Counted(Last(run).t, r) + Count(Counter(r), Last(run).ws) == |Times(run, moves, r)|
  {
    if moves == [] {
      var n: nat, d, seq0: nat, h :| n >= 1 && run[0] == Start(c, n, d, seq0, h);
      Accounting.StartTotals(c, n, d, seq0, h);
      Accounting.SpawnZero(Counter(r), n);
      assert Times(run, moves, r) == {};
    } else {
      var s, move := run[|moves| - 1], Last(moves);
      TraceFront(c, run, moves);
      TalliedAlways(c, Front(run), Front(moves), r);
      StepTallies(c, s, move.0, move.1, r);
      OneMoreTime(run, moves, r);
    }
  }

  // At the end the counters are the numbers of verdicts: `skipped` of refusals, pages of
  // answers, `errors` of fetches without one.
  lemma CountersAreVerdicts(c: Config, run: seq<State>, moves: Moves)
    requires Trace(c, run, moves) && IsStart(c, run[0]) && Finished(Last(run))
    ensures var t := Last(run).t;
      && t.skipped == |Times(run, moves, Refusal)|
      && |t.pages| == |Times(run, moves, Answer)|
      && t.errors == |Times(run, moves, Failure)|
  {
    VerdictsCounted(c, run, moves, Refusal);
    VerdictsCounted(c, run, moves, Answer);
    VerdictsCounted(c, run, moves, Failure);
  }

  lemma VerdictsCounted(c: Config, run: seq<State>, moves: Moves, r: Ruling)
    requires Trace(c, run, moves) && IsStart(c, run[0]) && Finished(Last(run))
    ensures Counted(Last(run).t, r) == |Times(run, moves, r)|
  {
    TalliedAlways(c, run, moves, r);
    CountZero(Counter(r), Last(run).ws);
  }
}
