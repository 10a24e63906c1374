// What the permits, the checks at the loop head, the leases and the stored parents keep
// to, in every state of every process (crates/engine/src/lib.rs:178-243,
// crates/frontier/src/frontier.rs:96-132).
module Guards {
  import opened Prelude
  import opened Urls
  import opened Protocol
  import opened Census
  import opened Wakeups
  import opened Recovery
  import opened Verdicts
  import Coverage
  import Outcomes

  // ----- the permits of a host -----

  lemma AdmitHolds(c: Config, s: State, item: Item, task: Task, o: Oracle, host: string)
    requires IsAdmission(task) && HoldsHost(MoveAdmit(c, s, item, task, o).0, host)
    ensures task.Reserved? && item.url.host == host
  {
  }

  lemma MoveHolds(c: Config, s: State, w: nat, o: Oracle, host: string)
    requires Enabled(c, s, w, o) && HoldsHost(Move(c, s, w, o).0, host)
    ensures HoldsHost(s.ws[w], host) || (s.ws[w].Busy? && s.ws[w].task.Reserved? && s.ws[w].item.url.host == host)
  {
    if s.ws[w].Busy? {
      var item, task := s.ws[w].item, s.ws[w].task;
      if task.Expanding? {} else if task.Pushing? {} else if IsPlain(task) {}
      else if IsAdmission(task) { AdmitHolds(c, s, item, task, o, host); }
    }
  }

  lemma HostKept(c: Config, s: State, w: nat, o: Oracle, host: string)
    requires Enabled(c, s, w, o) && |HostHolders(s.ws, host)| <= c.perHost
    ensures |HostHolders(Step(c, s, w, o).ws, host)| <= c.perHost
  {
    var s' := Step(c, s, w, o);
    MoveDisturbs(c, s, w, o);
    var old', new' := HostHolders(s.ws, host), HostHolders(s'.ws, host);
    if HoldsHost(s'.ws[w], host) { MoveHolds(c, s, w, o, host); }
    if w in new' && w !in old' {
      assert new' <= old' + {w};
      SubsetSize(new', old' + {w});
    } else {
      assert new' <= old';
      SubsetSize(new', old');
    }
  }

  // A thread between the request and the record of its result.
  predicate Connected(p: Phase, host: string) {
    p.Busy? && p.item.url.host == host
    && (p.task.Fetching? || HasPage(p.task) || p.task.Releasing? || p.task.Erring? || p.task.Logging?)
  }

  function ThreadsAt(ws: seq<Phase>, host: string): set<nat> { set u | 0 <= u < |ws| && Connected(ws[u], host) }

  // Never more than `per_host` threads at a time are with one host.
  lemma {:induction false} HostLimit(c: Config, run: seq<State>, host: string)
    requires Session(c, run)
    ensures |HostHolders(Last(run).ws, host)| <= c.perHost
    ensures |ThreadsAt(Last(run).ws, host)| <= c.perHost
  {
    var s := Last(run);
    if |run| == 1 {
      var n: nat, d, seq0: nat, h :| n >= 1 && run[0] == Start(c, n, d, seq0, h);
      SpawnShape(n);
      assert HostHolders(s.ws, host) == {};
    } else {
      var w, o := LastStep(c, run);
      HostLimit(c, run[..|run| - 1], host);
      HostKept(c, run[|run| - 2], w, o, host);
    }
    SubsetSize(ThreadsAt(s.ws, host), HostHolders(s.ws, host));
  }

  // ----- the checks at the loop head -----

  // The deadline has passed, or the budget is spent.
  predicate CalledOff(c: Config, s: State, o: Oracle) {
    (c.hasDeadline && o.flag) || (c.maxUrls.Some? && s.t.fetched >= c.maxUrls.value)
  }

  predicate Leaving(p: Phase) { p.Halting? || p.HaltNotifying? || p.Exited? }

  // A worker that finds the crawl called off turns to leave; any other asks for an item.
  lemma HeadDecides(c: Config, s: State, w: nat, o: Oracle)
    requires Enabled(c, s, w, o) && s.ws[w].Top?
    ensures var s' := Step(c, s, w, o);
      w < |s'.ws| && s' == s.(ws := s'.ws) && s'.ws[w] == if CalledOff(c, s, o) then Halting else Pop(Entering)
  {
  }

  lemma LeavingStays(c: Config, s: State, w: nat, o: Oracle, u: nat)
    requires Enabled(c, s, w, o) && u < |s.ws| && Leaving(s.ws[u]) && (s.f.stopped || s.ws[u].Halting?)
    ensures var s' := Step(c, s, w, o); u < |s'.ws| && Leaving(s'.ws[u]) && (s'.f.stopped || s'.ws[u].Halting?)
  {
    MoveDisturbs(c, s, w, o);
    Coverage.MoveGrows(c, s, w, o);
  }

  // It never takes an item again, and by the end the crawl is stopped.
  lemma {:induction false} CalledOffLeaves(c: Config, run: seq<State>, moves: Moves, k: nat, j: nat)
    requires Trace(c, run, moves) && k < |moves| && k < j < |run|
    requires moves[k].0 < |run[k].ws| && run[k].ws[moves[k].0].Top? && CalledOff(c, run[k], moves[k].1)
    ensures moves[k].0 < |run[j].ws| && Leaving(run[j].ws[moves[k].0])
    ensures run[j].f.stopped || run[j].ws[moves[k].0].Halting?
  {
    assert StepAt(c, run, moves, j - 1);
    if j == k + 1 {
      HeadDecides(c, run[k], moves[k].0, moves[k].1);
    } else {
      CalledOffLeaves(c, run, moves, k, j - 1);
      LeavingStays(c, run[j - 1], moves[j - 1].0, moves[j - 1].1, moves[k].0);
    }
  }

  // ----- leases -----

  predicate Leased(p: Phase, item: Item) { p.Busy? && p.item == item && !p.task.Leasing? && !p.task.Decrementing? }

  predicate SomeoneHas(s: State, item: Item) { exists u :: 0 <= u < |s.ws| && Leased(s.ws[u], item) }

  // A row is leased exactly while a thread works on its item.
  predicate LeaseExact(s: State) {
    forall fp :: fp in s.d.rows ==> (s.d.rows[fp].lease.Inflight? <==> SomeoneHas(s, s.d.rows[fp].item))
  }

  // What a move does to the rows, and to what the moving thread has leased.
  ghost predicate LeaseMove(c: Config, s: State, was: Phase, t: State, p: Phase) {
    if was.Busy? && was.task.Leasing? then
      (var fp := c.fp(was.item.url);
       && p == Busy(was.item, Acquiring)
       && t.d.rows == if fp in s.d.rows then s.d.rows[fp := s.d.rows[fp].(lease := Inflight)] else s.d.rows)
    else if was.Busy? && was.task.Deleting? then
      t.d.rows == s.d.rows - {c.fp(was.item.url)} && p == Busy(was.item, Decrementing(was.task.why))
    else
      && (forall item :: Leased(p, item) <==> Leased(was, item))
      && t.d.rows == if InStage(was, Enqueuing) then s.d.rows[c.fp(PushOf(was).value.0.url) := Row(PushOf(was).value.0, Queued)]
                     else s.d.rows
  }

  lemma AdmitLeases(c: Config, s: State, item: Item, task: Task, o: Oracle)
    requires IsAdmission(task)
    ensures var (p, t) := MoveAdmit(c, s, item, task, o); LeaseMove(c, s, Busy(item, task), t, p)
  {
  }

  lemma FetchLeases(c: Config, s: State, item: Item, task: Task, o: Oracle)
    requires IsRecording(task)
    ensures var (p, t) := MoveFetch(c, s, item, task, o); LeaseMove(c, s, Busy(item, task), t, p)
  {
  }

  lemma PushLeases(c: Config, s: State, item: Item, task: Task, o: Oracle)
    requires TaskEnabled(c, s, item, task, o) && (task.Pushing? || task.Expanding? || IsPlain(task))
    ensures var (p, t) := MoveTask(c, s, item, task, o); LeaseMove(c, s, Busy(item, task), t, p)
  {
  }

  lemma MoveLeases(c: Config, s: State, w: nat, o: Oracle)
    requires Enabled(c, s, w, o)
    ensures var (p, t) := Move(c, s, w, o); LeaseMove(c, s, s.ws[w], t, p)
  {
    if s.ws[w].Busy? {
      var item, task := s.ws[w].item, s.ws[w].task;
      if IsAdmission(task) { AdmitLeases(c, s, item, task, o); }
      else if IsRecording(task) { FetchLeases(c, s, item, task, o); }
      else { PushLeases(c, s, item, task, o); }
    } else {
      IdleLeases(c, s, w, o);
    }
  }

  lemma IdleLeases(c: Config, s: State, w: nat, o: Oracle)
    requires Enabled(c, s, w, o) && !s.ws[w].Busy?
    ensures var (p, t) := Move(c, s, w, o); LeaseMove(c, s, s.ws[w], t, p)
  {
  }

  lemma OthersHave(c: Config, s: State, w: nat, o: Oracle, u: nat, item: Item)
    requires Enabled(c, s, w, o) && u < |s.ws| && u != w
    ensures |Step(c, s, w, o).ws| == |s.ws| && (Leased(Step(c, s, w, o).ws[u], item) <==> Leased(s.ws[u], item))
  {
    MoveDisturbs(c, s, w, o);
  }

  // If the moving thread has an item leased neither before nor after, or both.
  lemma HasSame(c: Config, s: State, w: nat, o: Oracle, item: Item)
    requires Enabled(c, s, w, o) && (Leased(Move(c, s, w, o).0, item) <==> Leased(s.ws[w], item))
    ensures SomeoneHas(Step(c, s, w, o), item) <==> SomeoneHas(s, item)
  {
    var s' := Step(c, s, w, o);
    MoveDisturbs(c, s, w, o);
    if u :| 0 <= u < |s.ws| && Leased(s.ws[u], item) {
      if u != w { OthersHave(c, s, w, o, u, item); }
      assert Leased(s'.ws[u], item);
    }
    if u :| 0 <= u < |s'.ws| && Leased(s'.ws[u], item) {
      if u != w { OthersHave(c, s, w, o, u, item); }
      assert Leased(s.ws[u], item);
    }
  }

  // Nobody has an item before its row is written.
  lemma UnwrittenUnleased(c: Config, s: State, w: nat)
    requires Durable(c, s) && w < |s.ws| && InStage(s.ws[w], Enqueuing)
    ensures c.fp(PushOf(s.ws[w]).value.0.url) !in s.d.rows && !SomeoneHas(s, PushOf(s.ws[w]).value.0)
  {
    var child := PushOf(s.ws[w]).value.0;
    var fp := c.fp(child.url);
    HeldAtLeast(c, s.ws, Unstored(fp), w);
    assert Total(c, s, Unstored(fp)) + Settled(s, fp) == Bit(fp in s.f.visited);
    if u :| 0 <= u < |s.ws| && Leased(s.ws[u], child) { HandHasRow(c, s, u); }
  }

  lemma RowLease(c: Config, s: State, w: nat, o: Oracle, fp: Fp)
    requires Durable(c, s) && LeaseExact(s) && Enabled(c, s, w, o) && fp in Step(c, s, w, o).d.rows
    ensures var s' := Step(c, s, w, o); s'.d.rows[fp].lease.Inflight? <==> SomeoneHas(s', s'.d.rows[fp].item)
  {
    var s', was := Step(c, s, w, o), s.ws[w];
    MoveLeases(c, s, w, o);
    MoveDisturbs(c, s, w, o);
    if was.Busy? && was.task.Leasing? && fp == c.fp(was.item.url) {
      HandHasRow(c, s, w);
      assert Leased(s'.ws[w], was.item);
    } else {
      if InStage(was, Enqueuing) { UnwrittenUnleased(c, s, w); }
      if was.Busy? { assert was.task.Leasing? || was.task.Deleting? ==> c.fp(was.item.url) != fp; }
      assert fp in s.d.rows ==> c.fp(s.d.rows[fp].item.url) == fp;
      HasSame(c, s, w, o, s'.d.rows[fp].item);
    }
  }

  lemma LeaseKept(c: Config, s: State, w: nat, o: Oracle)
    requires Durable(c, s) && LeaseExact(s) && Enabled(c, s, w, o)
    ensures LeaseExact(Step(c, s, w, o))
  {
    forall fp | fp in Step(c, s, w, o).d.rows
      ensures var s' := Step(c, s, w, o); s'.d.rows[fp].lease.Inflight? <==> SomeoneHas(s', s'.d.rows[fp].item)
    {
      RowLease(c, s, w, o, fp);
    }
  }

  lemma StartUnleased(c: Config, s: State)
    requires IsStart(c, s) && forall fp :: fp in s.d.rows ==> s.d.rows[fp].lease.Queued?
    ensures LeaseExact(s)
  {
    Outcomes.StartIdle(c, s);
  }

  // In every state of every process on one store the lease says who is at work; a restart
  // takes all of them back.
  lemma {:induction false} LeasesAlways(c: Config, run: seq<State>)
    requires LongRun(c, run)
    ensures LeaseExact(Last(run))
  {
    if |run| == 1 {
      StartUnleased(c, run[0]);
    } else {
      LongRunLast(c, run);
      var s := run[|run| - 2];
      LeasesAlways(c, run[..|run| - 1]);
      if Crash(c, s, Last(run)) {
        StartUnleased(c, Last(run));
      } else {
        var w: nat, o :| Enabled(c, s, w, o) && Last(run) == Step(c, s, w, o);
        DurableAlways(c, run[..|run| - 1]);
        LeaseKept(c, s, w, o);
      }
    }
  }

  // ----- parents -----

  // The page expanded links to the URL, in scope.
  ghost predicate LinkOf(c: Config, e: Expansion, item: Item) {
    && item.from == Some(e.item.url) && item.depth == e.item.depth + 1
    && exists k :: 0 <= k < |e.links| && (c.sameDomain ==> e.links[k].host == e.host) && c.Norm(e.links[k]) == item.url
  }

  ghost predicate Parented(c: Config, expanded: set<Expansion>, item: Item) {
    if item.from.None? then Key(item) == (c.Norm(c.seed), 0)
    else exists e :: e in expanded && LinkOf(c, e, item)
  }

  ghost predicate ThreadParented(c: Config, expanded: set<Expansion>, p: Phase) {
    && (PushOf(p).Some? ==> Parented(c, expanded, PushOf(p).value.0))
    && (p.Busy? && p.task.Expanding? ==> p.task.e.item == p.item && p.task.e.(next := 0) in expanded)
    && (p.Busy? && p.task.Pushing? ==> p.task.e.item == p.item && p.task.e.(next := 0) in expanded)
    && (p.Busy? && p.task.Tallying? ==> p.task.e.item == p.item && p.task.e.(next := 0) in expanded)
  }

  ghost predicate RowsParented(c: Config, s: State) {
    forall fp :: fp in s.d.rows ==> Parented(c, s.h.expanded, s.d.rows[fp].item)
  }

  ghost predicate AllParented(c: Config, s: State) {
    RowsParented(c, s) && forall u :: 0 <= u < |s.ws| ==> ThreadParented(c, s.h.expanded, s.ws[u])
  }

  lemma ParentedGrows(c: Config, was: set<Expansion>, now: set<Expansion>, p: Phase)
    requires was <= now && ThreadParented(c, was, p)
    ensures ThreadParented(c, now, p)
  {
    if PushOf(p).Some? { ItemGrows(c, was, now, PushOf(p).value.0); }
  }

  lemma ItemGrows(c: Config, was: set<Expansion>, now: set<Expansion>, item: Item)
    requires was <= now && Parented(c, was, item)
    ensures Parented(c, now, item)
  {
    if item.from.Some? {
      var e :| e in was && LinkOf(c, e, item);
      assert e in now;
    }
  }

  lemma LinkParented(c: Config, s: State, item: Item, e: Expansion)
    requires ThreadParented(c, s.h.expanded, Busy(item, Expanding(e)))
    ensures var (p, t) := MoveLink(c, s, item, e); ThreadParented(c, s.h.expanded, p) && t.h.expanded == s.h.expanded
  {
    var p := MoveLink(c, s, item, e).0;
    assert e.(next := e.next + 1).(next := 0) == e.(next := 0);
    if p.task.Pushing? { assert LinkOf(c, e.(next := 0), p.task.child); }
  }

  lemma PushParented(c: Config, s: State, item: Item, task: Task, o: Oracle)
    requires TaskEnabled(c, s, item, task, o) && task.Pushing? && ThreadParented(c, s.h.expanded, Busy(item, task))
    ensures ThreadParented(c, s.h.expanded, MoveTask(c, s, item, task, o).0)
  {
    RenumberedParented(c, s, task.child, task.stage);
  }

  lemma RenumberedParented(c: Config, s: State, child: Item, stage: Stage)
    requires Parented(c, s.h.expanded, child)
    ensures Parented(c, s.h.expanded, PushNext(s, child, stage).0)
  {
    var next := PushNext(s, child, stage).0;
    if child.from.Some? {
      var e :| e in s.h.expanded && LinkOf(c, e, child);
      assert LinkOf(c, e, next);
    }
  }

  lemma AdmitPushesNothing(c: Config, s: State, item: Item, task: Task, o: Oracle)
    requires IsAdmission(task)
    ensures var p := MoveAdmit(c, s, item, task, o).0;
      p.Busy? && !p.task.Pushing? && !p.task.Expanding? && !p.task.Tallying?
  {
  }

  lemma FetchExpands(c: Config, s: State, item: Item, task: Task, o: Oracle)
    requires IsRecording(task)
    ensures var (p, t) := MoveFetch(c, s, item, task, o);
      p.Busy? && p.item == item && !p.task.Pushing? && !p.task.Tallying?
      && (p.task.Expanding? ==> p.task.e.item == item && p.task.e.next == 0 && p.task.e in t.h.expanded)
  {
  }

  lemma MoveParented(c: Config, s: State, w: nat, o: Oracle)
    requires Enabled(c, s, w, o) && ThreadParented(c, s.h.expanded, s.ws[w])
    ensures var (p, t) := Move(c, s, w, o); ThreadParented(c, t.h.expanded, p)
  {
    if s.ws[w].Busy? {
      var item, task := s.ws[w].item, s.ws[w].task;
      Coverage.MoveGrows(c, s, w, o);
      if task.Expanding? { LinkParented(c, s, item, task.e); }
      else if task.Pushing? {
        PushParented(c, s, item, task, o);
        ParentedGrows(c, s.h.expanded, Move(c, s, w, o).1.h.expanded, Move(c, s, w, o).0);
      }
      else if IsPlain(task) {}
      else if IsAdmission(task) { AdmitPushesNothing(c, s, item, task, o); }
      else { FetchExpands(c, s, item, task, o); }
    } else {
      IdleParented(c, s, w, o);
    }
  }

  lemma IdleParented(c: Config, s: State, w: nat, o: Oracle)
    requires Enabled(c, s, w, o) && !s.ws[w].Busy? && ThreadParented(c, s.h.expanded, s.ws[w])
    ensures var (p, t) := Move(c, s, w, o); ThreadParented(c, t.h.expanded, p)
  {
    if s.ws[w].Seeding? { RenumberedParented(c, s, s.ws[w].child, s.ws[w].stage); }
  }

  lemma ParentedKept(c: Config, s: State, w: nat, o: Oracle)
    requires AllParented(c, s) && Enabled(c, s, w, o)
    ensures AllParented(c, Step(c, s, w, o))
  {
    var s' := Step(c, s, w, o);
    MoveParented(c, s, w, o);
    MoveDisturbs(c, s, w, o);
    MoveLeases(c, s, w, o);
    Coverage.MoveGrows(c, s, w, o);
    forall u | 0 <= u < |s'.ws| ensures ThreadParented(c, s'.h.expanded, s'.ws[u]) {
      if u != w { ParentedGrows(c, s.h.expanded, s'.h.expanded, s.ws[u]); }
    }
    forall fp | fp in s'.d.rows ensures Parented(c, s'.h.expanded, s'.d.rows[fp].item) {
      RowParented(c, s, w, s', fp);
    }
  }

  lemma RowParented(c: Config, s: State, w: nat, s': State, fp: Fp)
    requires AllParented(c, s) && w < |s.ws| && s.h.expanded <= s'.h.expanded && fp in s'.d.rows
    requires (fp in s.d.rows && s.d.rows[fp].item == s'.d.rows[fp].item)
      || (PushOf(s.ws[w]).Some? && PushOf(s.ws[w]).value.0 == s'.d.rows[fp].item)
    ensures Parented(c, s'.h.expanded, s'.d.rows[fp].item)
  {
    ItemGrows(c, s.h.expanded, s'.h.expanded, s'.d.rows[fp].item);
  }

  lemma StartParented(c: Config, n: nat, s: State)
    requires s.ws == Spawn(n) && RowsParented(c, s)
    ensures AllParented(c, s)
  {
    SpawnShape(n);
  }

  // Every item queued or in hand carries the page that linked to it, one level above; only
  // the seed has none.
  lemma {:induction false} ParentsAlways(c: Config, run: seq<State>)
    requires LongRun(c, run)
    ensures AllParented(c, Last(run))
  {
    if |run| == 1 {
      var n: nat :| n >= 1 && run[0] == Fresh(c, n);
      StartParented(c, n, run[0]);
    } else {
      LongRunLast(c, run);
      var s := run[|run| - 2];
      ParentsAlways(c, run[..|run| - 1]);
      if Crash(c, s, Last(run)) {
        var n: nat, m: nat :| RestartsAs(c, s, n, m, Last(run));
        StartParented(c, n, Last(run));
      } else {
        var w: nat, o :| Enabled(c, s, w, o) && Last(run) == Step(c, s, w, o);
        ParentedKept(c, s, w, o);
      }
    }
  }

  lemma LiveIsParented(c: Config, run: seq<State>, item: Item)
    requires LongRun(c, run) && IsLive(Last(run), item)
    ensures Parented(c, Last(run).h.expanded, item)
  {
    var s := Last(run);
    ParentsAlways(c, run);
    DurableAlways(c, run);
    LiveHeld(c, s, item);
    assert Total(c, s, Live(item)) == Bit(HasRow(c, s.d, item));
  }

  // ----- the order of the queue -----

  // Of all that is queued, a worker takes an item of the least depth, and of those the one
  // numbered first.
  lemma PopsInOrder(c: Config, run: seq<State>, w: nat, o: Oracle)
    requires LongRun(c, run) && Enabled(c, Last(run), w, o) && Last(run).f.queue != multiset{}
    requires Last(run).ws[w].Pop? && Last(run).ws[w].at.Polling?
    ensures var (s, p) := (Last(run), Move(c, Last(run), w, o).0);
      && p.Busy? && p.item in s.f.queue
      && forall other :: other in s.f.queue && other != p.item ==>
           p.item.depth < other.depth || (p.item.depth == other.depth && p.item.seqno < other.seqno)
  {
    var s := Last(run);
    DurableAlways(c, run);
    CanonicalAlways(c, run);
    QueuedIsCanonical(c, s, o.item);
    forall other | other in s.f.queue && other != o.item
      ensures o.item.depth < other.depth || (o.item.depth == other.depth && o.item.seqno < other.seqno)
    {
      QueuedIsCanonical(c, s, other);
      PopOrderStrict(c, run, o.item, other);
    }
  }

  lemma QueuedIsCanonical(c: Config, s: State, item: Item)
    requires Durable(c, s) && AllCanonical(c, s) && item in s.f.queue
    ensures item.priority == Score(item.depth) && IsLive(s, item)
  {
    assert Total(c, s, Live(item)) == Bit(HasRow(c, s.d, item));
  }

  // A new item is numbered above everything queued or in hand.
  lemma NumberedLast(c: Config, run: seq<State>, w: nat, o: Oracle, other: Item)
    requires LongRun(c, run) && Enabled(c, Last(run), w, o) && InStage(Last(run).ws[w], Numbering) && IsLive(Last(run), other)
    ensures var p := Move(c, Last(run), w, o).0;
      PushOf(p).Some? && PushOf(p).value.0 == PushOf(Last(run).ws[w]).value.0.(seqno := PushOf(p).value.0.seqno)
      && other.seqno < PushOf(p).value.0.seqno
  {
    var s := Last(run);
    DurableAlways(c, run);
    LiveHeld(c, s, other);
    assert Total(c, s, Live(other)) == Bit(HasRow(c, s.d, other));
  }
}
