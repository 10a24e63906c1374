// How items end: the pages of a finished process are exactly its answers, its error list
// exactly the fetches without one, no URL appears twice, and whatever the verdicts let
// through is a page, an error or a drop (crates/engine/src/lib.rs:221-378).
module Outcomes {
  import opened Prelude
  import opened Urls
  import opened Protocol
  import opened Census
  import opened Wakeups
  import opened Recovery
  import opened Verdicts

  datatype Result = APage(page: PageRecord) | AnError(url: Url)

  predicate Filed(t: Stats, r: Result) {
    match r case APage(page) => page in t.pages case AnError(url) => url in t.errorLog
  }

  // ----- from the fetch to the record -----

  // The links a thread has of an item's page.
  function LinksIn(task: Task): seq<Url>
    requires HasPage(task)
  {
    match task
    case Answered(response) => response.links
    case Scoping(links) => links
    case Expanding(e) => e.links
    case Pushing(e, _, _) => e.links
    case Tallying(e) => e.links
    case Recording(links) => links
  }

  predicate Carrying(p: Phase, r: Result) {
    p.Busy? &&
    match r
    case APage(page) => HasPage(p.task) && page == PageRecord(p.item.url, p.item.depth, LinksIn(p.task))
    case AnError(url) => (p.task.Releasing? || p.task.Erring? || p.task.Logging?) && url == p.item.url
  }

  predicate Underway(s: State, r: Result) { exists u :: 0 <= u < |s.ws| && Carrying(s.ws[u], r) }

  lemma FetchGoesOn(c: Config, s: State, item: Item, task: Task, o: Oracle, r: Result)
    requires IsRecording(task) && Carrying(Busy(item, task), r)
    ensures var (p, t) := MoveFetch(c, s, item, task, o); Filed(t.t, r) || Carrying(p, r)
  {
  }

  lemma TaskGoesOn(c: Config, s: State, item: Item, task: Task, o: Oracle, r: Result)
    requires TaskEnabled(c, s, item, task, o) && Carrying(Busy(item, task), r)
    ensures var (p, t) := MoveTask(c, s, item, task, o); Filed(t.t, r) || Carrying(p, r)
  {
    if IsRecording(task) { FetchGoesOn(c, s, item, task, o, r); }
  }

  lemma ResultStays(c: Config, s: State, w: nat, o: Oracle, r: Result)
    requires Enabled(c, s, w, o) && (Filed(s.t, r) || Underway(s, r))
    ensures Filed(Step(c, s, w, o).t, r) || Underway(Step(c, s, w, o), r)
  {
    var s' := Step(c, s, w, o);
    StepRecords(c, s, w, o);
    if !Filed(s.t, r) {
      var u :| 0 <= u < |s.ws| && Carrying(s.ws[u], r);
      if u == w {
        TaskGoesOn(c, s, s.ws[w].item, s.ws[w].task, o, r);
        assert s'.ws[w] == Move(c, s, w, o).0;
      } else {
        OthersStay(c, s, w, o, u);
        assert Carrying(s'.ws[u], r);
      }
    }
  }

  predicate Fetches(s: State, move: (nat, Oracle)) { Gives(s, move, Answer) || Gives(s, move, Failure) }

  // What a fetch makes of the item.
  function ResultOf(s: State, move: (nat, Oracle)): Result
    requires Fetches(s, move)
  {
    var item := s.ws[move.0].item;
    if move.1.answer.Some? then APage(PageRecord(item.url, item.depth, move.1.answer.value.links)) else AnError(item.url)
  }

  lemma {:induction false} FetchLeads(c: Config, run: seq<State>, moves: Moves, k: nat, j: nat)
    requires Trace(c, run, moves) && k < |moves| && k < j < |run| && Fetches(run[k], moves[k])
    ensures Filed(run[j].t, ResultOf(run[k], moves[k])) || Underway(run[j], ResultOf(run[k], moves[k]))
  {
    var (w, o) := moves[j - 1];
    assert StepAt(c, run, moves, j - 1);
    if j == k + 1 {
      RulingLeads(c, run[k], w, o);
      assert Carrying(run[j].ws[w], ResultOf(run[k], moves[k]));
    } else {
      FetchLeads(c, run, moves, k, j - 1);
      ResultStays(c, run[j - 1], w, o, ResultOf(run[k], moves[k]));
    }
  }

  // ----- and back -----

  ghost predicate FromFetch(run: seq<State>, moves: Moves, r: Result)
    requires |run| == |moves| + 1
  {
    exists k: nat :: k < |moves| && Fetches(run[k], moves[k]) && r == ResultOf(run[k], moves[k])
  }

  lemma FromFetchGrows(run: seq<State>, moves: Moves, r: Result)
    requires |run| == |moves| + 1 && moves != [] && FromFetch(Front(run), Front(moves), r)
    ensures FromFetch(run, moves, r)
  {
    var k: nat :| k < |Front(moves)| && Fetches(Front(run)[k], Front(moves)[k]) && r == ResultOf(Front(run)[k], Front(moves)[k]);
    assert Fetches(run[k], moves[k]);
  }

  lemma FetchFrom(c: Config, s: State, item: Item, task: Task, o: Oracle, r: Result)
    requires IsRecording(task) && !task.Fetching?
    ensures Carrying(MoveFetch(c, s, item, task, o).0, r) ==> Carrying(Busy(item, task), r)
  {
  }

  lemma AdmitFrom(c: Config, s: State, item: Item, task: Task, o: Oracle, r: Result)
    requires IsAdmission(task)
    ensures !Carrying(MoveAdmit(c, s, item, task, o).0, r)
  {
  }

  // What a thread is to record it had before, or the fetch just gave.
  lemma TaskFrom(c: Config, s: State, item: Item, task: Task, o: Oracle, r: Result)
    requires TaskEnabled(c, s, item, task, o) && !task.Fetching? && Carrying(MoveTask(c, s, item, task, o).0, r)
    ensures Carrying(Busy(item, task), r)
  {
    if IsAdmission(task) { AdmitFrom(c, s, item, task, o, r); }
    else if IsRecording(task) { FetchFrom(c, s, item, task, o, r); }
  }

  lemma UnderwayFrom(c: Config, s: State, w: nat, o: Oracle, r: Result)
    requires Enabled(c, s, w, o) && Underway(Step(c, s, w, o), r)
    ensures Underway(s, r) || (Fetches(s, (w, o)) && r == ResultOf(s, (w, o)))
  {
    var s' := Step(c, s, w, o);
    var u :| 0 <= u < |s'.ws| && Carrying(s'.ws[u], r);
    MoveDisturbs(c, s, w, o);
    if u != w {
      assert Carrying(s.ws[u], r);
    } else if !s.ws[w].Busy? {
      IdleStarts(c, s, w, o);
    } else if s.ws[w].task.Fetching? {
      RulingLeads(c, s, w, o);
    } else {
      TaskFrom(c, s, s.ws[w].item, s.ws[w].task, o, r);
      assert Carrying(s.ws[w], r);
    }
  }

  lemma IdleStarts(c: Config, s: State, w: nat, o: Oracle)
    requires Enabled(c, s, w, o) && !s.ws[w].Busy?
    ensures var p := Move(c, s, w, o).0; p.Busy? ==> p.task == Leasing
  {
  }

  lemma FiledFrom(c: Config, s: State, w: nat, o: Oracle, r: Result)
    requires Enabled(c, s, w, o) && Filed(Step(c, s, w, o).t, r)
    ensures Filed(s.t, r) || Underway(s, r)
  {
    StepRecords(c, s, w, o);
    if !Filed(s.t, r) { assert Carrying(s.ws[w], r); }
  }

  lemma {:induction false} ResultsFromFetches(c: Config, run: seq<State>, moves: Moves, r: Result)
    requires Trace(c, run, moves) && IsStart(c, run[0]) && (Filed(Last(run).t, r) || Underway(Last(run), r))
    ensures FromFetch(run, moves, r)
  {
    if moves == [] {
      StartIdle(c, run[0]);
    } else {
      TraceFront(c, run, moves);
      var s, w, o := run[|moves| - 1], Last(moves).0, Last(moves).1;
      if Filed(Last(run).t, r) { FiledFrom(c, s, w, o, r); } else { UnderwayFrom(c, s, w, o, r); }
      if Filed(s.t, r) || Underway(s, r) {
        ResultsFromFetches(c, Front(run), Front(moves), r);
        FromFetchGrows(run, moves, r);
      } else {
        assert Fetches(run[|moves| - 1], moves[|moves| - 1]);
      }
    }
  }

  lemma StartIdle(c: Config, s: State)
    requires IsStart(c, s)
    ensures s.t == Stats(0, 0, 0, 0, [], []) && forall u :: 0 <= u < |s.ws| ==> !s.ws[u].Busy?
  {
    var n: nat, d, seq0: nat, h :| n >= 1 && s == Start(c, n, d, seq0, h);
    SpawnShape(n);
  }

  // The results of a finished process are those of its fetches: the item's URL and depth
  // with the links of the response, or its URL in the error list.
  lemma ResultsAreFetches(c: Config, run: seq<State>, moves: Moves, r: Result)
    requires Trace(c, run, moves) && IsStart(c, run[0]) && Finished(Last(run))
    ensures Filed(Last(run).t, r) <==> FromFetch(run, moves, r)
  {
    if Filed(Last(run).t, r) {
      ResultsFromFetches(c, run, moves, r);
    } else if FromFetch(run, moves, r) {
      var k: nat :| k < |moves| && Fetches(run[k], moves[k]) && r == ResultOf(run[k], moves[k]);
      FetchLeads(c, run, moves, k, |moves|);
    }
  }

  // ----- nothing twice -----

  predicate NoneTwice(c: Config, t: Stats) {
    && (forall i, j :: 0 <= i < j < |t.pages| ==> c.fp(t.pages[i].url) != c.fp(t.pages[j].url))
    && (forall i, j :: 0 <= i < j < |t.errorLog| ==> c.fp(t.errorLog[i]) != c.fp(t.errorLog[j]))
    && (forall i, j :: 0 <= i < |t.pages| && 0 <= j < |t.errorLog| ==> c.fp(t.pages[i].url) != c.fp(t.errorLog[j]))
  }

  lemma RecorderIsNew(c: Config, s: State, w: nat, before: set<Expansion>)
    requires Durable(c, s) && Accounted(c, s, before) && w < |s.ws| && s.ws[w].Busy?
    requires s.ws[w].task.Recording? || s.ws[w].task.Logging?
    ensures forall i :: 0 <= i < |s.t.pages| ==> c.fp(s.t.pages[i].url) != c.fp(s.ws[w].item.url)
    ensures forall i :: 0 <= i < |s.t.errorLog| ==> c.fp(s.t.errorLog[i]) != c.fp(s.ws[w].item.url)
  {
    if StandsAs(c, s, c.fp(s.ws[w].item.url), Closed) { StandingIsTask(c, s, w, Closed); }
  }

  lemma OnceMore(c: Config, s: State, w: nat, o: Oracle, before: set<Expansion>)
    requires Durable(c, s) && Accounted(c, s, before) && Enabled(c, s, w, o) && NoneTwice(c, s.t)
    ensures NoneTwice(c, Step(c, s, w, o).t)
  {
    StepRecords(c, s, w, o);
    if s.ws[w].Busy? && (s.ws[w].task.Recording? || s.ws[w].task.Logging?) { RecorderIsNew(c, s, w, before); }
  }

  // Each URL is one page or one error at most.
  lemma {:induction false} ResultsOnce(c: Config, past: seq<State>, run: seq<State>, moves: Moves, k: nat)
    requires Process(c, past, run, moves) && k < |run|
    ensures NoneTwice(c, run[k].t)
  {
    if k == 0 {
      StartIdle(c, run[0]);
    } else {
      ResultsOnce(c, past, run, moves, k - 1);
      assert StepAt(c, run, moves, k - 1);
      DurableAt(c, past, run, moves, k - 1);
      OnceMore(c, run[k - 1], moves[k - 1].0, moves[k - 1].1, run[0].h.expanded);
    }
  }

  // ----- how an admitted item ends -----

  // A step in which the budget turns an item away.
  predicate Drops(c: Config, s: State, move: (nat, Oracle), item: Item) {
    && move.0 < |s.ws| && s.ws[move.0].Busy? && s.ws[move.0].item == item && s.ws[move.0].task.Reserving?
    && c.maxUrls.Some? && s.ws[move.0].task.current >= c.maxUrls.value
  }

  ghost predicate Dropped(c: Config, run: seq<State>, moves: Moves, j: nat, item: Item)
    requires |run| == |moves| + 1
  {
    exists i: nat :: i < j && i < |moves| && Drops(c, run[i], moves[i], item)
  }

  ghost predicate HasResult(t: Stats, item: Item) {
    item.url in t.errorLog || exists links :: PageRecord(item.url, item.depth, links) in t.pages
  }

  predicate Serving(p: Phase, item: Item) {
    p.Busy? && p.item == item &&
    (p.task.Loading? || p.task.Reserving? || p.task.Reserved? || p.task.Fetching? || HasPage(p.task)
     || p.task.Releasing? || p.task.Erring? || p.task.Logging?)
  }

  lemma AdmitServes(c: Config, s: State, item: Item, task: Task, o: Oracle)
    requires IsAdmission(task) && Serving(Busy(item, task), item)
    requires !(task.Reserving? && c.maxUrls.Some? && task.current >= c.maxUrls.value)
    ensures Serving(MoveAdmit(c, s, item, task, o).0, item)
  {
  }

  lemma FetchServes(c: Config, s: State, item: Item, task: Task, o: Oracle)
    requires IsRecording(task)
    ensures var (p, t) := MoveFetch(c, s, item, task, o); Serving(p, item) || HasResult(t.t, item)
  {
    var t := MoveFetch(c, s, item, task, o).1;
    if task.Recording? { assert PageRecord(item.url, item.depth, task.links) in t.t.pages; }
  }

  lemma TaskServes(c: Config, s: State, item: Item, task: Task, o: Oracle)
    requires TaskEnabled(c, s, item, task, o) && Serving(Busy(item, task), item)
    requires !(task.Reserving? && c.maxUrls.Some? && task.current >= c.maxUrls.value)
    ensures var (p, t) := MoveTask(c, s, item, task, o); Serving(p, item) || HasResult(t.t, item)
  {
    if IsAdmission(task) { AdmitServes(c, s, item, task, o); }
    else if IsRecording(task) { FetchServes(c, s, item, task, o); }
  }

  lemma ServingStays(c: Config, s: State, w: nat, o: Oracle, u: nat, item: Item)
    requires Enabled(c, s, w, o) && u < |s.ws| && Serving(s.ws[u], item)
    requires u == w ==> !Drops(c, s, (w, o), item)
    ensures var s' := Step(c, s, w, o); u < |s'.ws| && (Serving(s'.ws[u], item) || HasResult(s'.t, item))
  {
    if u == w { TaskServes(c, s, item, s.ws[w].task, o); } else { OthersStay(c, s, w, o, u); }
  }

  lemma ResultKept(c: Config, s: State, w: nat, o: Oracle, item: Item)
    requires Enabled(c, s, w, o) && HasResult(s.t, item)
    ensures HasResult(Step(c, s, w, o).t, item)
  {
    StepRecords(c, s, w, o);
    if item.url !in s.t.errorLog {
      var links :| PageRecord(item.url, item.depth, links) in s.t.pages;
      assert PageRecord(item.url, item.depth, links) in Step(c, s, w, o).t.pages;
    }
  }

  lemma {:induction false} AdmittedGoesOn(c: Config, run: seq<State>, moves: Moves, k: nat, j: nat)
    requires Trace(c, run, moves) && k < |moves| && k < j < |run| && Admits(run[k], moves[k])
    ensures var item := Subject(run, moves, k);
      HasResult(run[j].t, item) || Dropped(c, run, moves, j, item)
      || (moves[k].0 < |run[j].ws| && Serving(run[j].ws[moves[k].0], item))
  {
    var (w, o) := moves[j - 1];
    var item, u := Subject(run, moves, k), moves[k].0;
    assert StepAt(c, run, moves, j - 1);
    if j == k + 1 {
      RulingLeads(c, run[k], w, o);
    } else {
      AdmittedGoesOn(c, run, moves, k, j - 1);
      if HasResult(run[j - 1].t, item) {
        ResultKept(c, run[j - 1], w, o, item);
      } else if !Dropped(c, run, moves, j - 1, item) && !Drops(c, run[j - 1], moves[j - 1], item) {
        ServingStays(c, run[j - 1], w, o, u, item);
      }
    }
  }

  // An item let through by both verdicts ends as a page or an error, unless the budget
  // turns it away.
  lemma AdmittedEnds(c: Config, run: seq<State>, moves: Moves, k: nat)
    requires Trace(c, run, moves) && IsStart(c, run[0]) && Finished(Last(run)) && k < |moves| && Admits(run[k], moves[k])
    ensures HasResult(Last(run).t, Subject(run, moves, k)) || Dropped(c, run, moves, |moves|, Subject(run, moves, k))
  {
    AdmittedGoesOn(c, run, moves, k, |moves|);
  }
}
