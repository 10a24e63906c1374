// The SQLite mirror under crashes: a crash may strike between any two steps, and
// the next process starts from what `load` reads (crates/frontier/src/store.rs,
// crates/frontier/src/frontier.rs:58-93).
module Recovery {
  import opened Prelude
  import opened Urls
  import opened Protocol
  import opened Census

  // What a thread holds that the tables must agree with:
  //   Live     an item that has a row
  //   Unstored  a fingerprint in `visited` whose row is not written yet
  //   Marked   one that is in `seen` already
  //   Numbered a sequence number no row carries yet
  datatype Holding = Live(item: Item) | Unstored(fp: Fp) | Marked(fp: Fp) | Numbered(n: nat)

  function ChildHolds(c: Config, child: Item, stage: Stage, k: Holding): nat {
    match k
    case Live(item) => Bit((stage.Counting? || stage.Heaping?) && child == item)
    case Unstored(fp) => Bit((stage.Numbering? || stage.MarkingSeen? || stage.Enqueuing?) && c.fp(child.url) == fp)
    case Marked(fp) => Bit(stage.Enqueuing? && c.fp(child.url) == fp)
    case Numbered(n) => Bit((stage.MarkingSeen? || stage.Enqueuing?) && child.seqno == n)
  }

  function Holds(c: Config, p: Phase, k: Holding): nat {
    match p
    case Seeding(child, stage) => ChildHolds(c, child, stage, k)
    case Busy(item, task) =>
      Bit(k == Live(item) && !task.Decrementing?)
      + (if task.Pushing? then ChildHolds(c, task.child, task.stage, k) else 0)
    case _ => 0
  }

  function Held(c: Config, ws: seq<Phase>, k: Holding): nat {
    if ws == [] then 0 else Held(c, ws[..|ws| - 1], k) + Holds(c, ws[|ws| - 1], k)
  }

  lemma {:induction false} HeldUpdate(c: Config, ws: seq<Phase>, k: Holding, w: nat, p: Phase)
    requires w < |ws|
    ensures Held(c, ws[w := p], k) == Held(c, ws, k) - Holds(c, ws[w], k) + Holds(c, p, k)
  {
    var n := |ws| - 1;
    if w < n {
      HeldUpdate(c, ws[..n], k, w, p);
      assert ws[w := p][..n] == ws[..n][w := p];
    } else {
      assert ws[w := p][..n] == ws[..n];
    }
  }

  lemma {:induction false} HeldWakeAll(c: Config, ws: seq<Phase>, k: Holding)
    ensures Held(c, WakeAll(ws), k) == Held(c, ws, k)
  {
    if ws != [] {
      HeldWakeAll(c, ws[..|ws| - 1], k);
      assert WakeAll(ws)[..|ws| - 1] == WakeAll(ws[..|ws| - 1]);
    }
  }

  lemma {:induction false} HeldNone(c: Config, ws: seq<Phase>, k: Holding)
    requires forall i :: 0 <= i < |ws| ==> Holds(c, ws[i], k) == 0
    ensures Held(c, ws, k) == 0
  {
    if ws != [] { HeldNone(c, ws[..|ws| - 1], k); }
  }

  lemma {:induction false} HeldBy(c: Config, ws: seq<Phase>, k: Holding) returns (i: nat)
    requires Held(c, ws, k) > 0
    ensures i < |ws| && Holds(c, ws[i], k) > 0
  {
    i := |ws| - 1;
    if Holds(c, ws[i], k) == 0 { i := HeldBy(c, ws[..i], k); }
  }

  lemma {:induction false} HeldAtLeast(c: Config, ws: seq<Phase>, k: Holding, i: nat)
    requires i < |ws|
    ensures Held(c, ws, k) >= Holds(c, ws[i], k)
  {
    if i < |ws| - 1 { HeldAtLeast(c, ws[..|ws| - 1], k, i); }
  }

  lemma HeldMoved(c: Config, ws: seq<Phase>, tws: seq<Phase>, k: Holding, w: nat, pick: nat, p: Phase)
    requires Disturbed(ws, tws, w, pick)
    ensures Held(c, tws[w := p], k) == Held(c, ws, k) - Holds(c, ws[w], k) + Holds(c, p, k)
  {
    HeldUpdate(c, tws, k, w, p);
    if !ws[w].Pop? && tws == WakeAll(ws) {
      HeldWakeAll(c, ws, k);
    } else if tws != ws {
      HeldUpdate(c, ws, k, pick, Pop(Woken));
    }
  }

  // ----- what one move does to the tables -----

  datatype Event =
    | Quiet
    | Accept(fp: Fp)             // new fingerprint in `visited`
    | Number(n: nat)            // sequence number drawn
    | MarkSeen(fp: Fp)
    | Store(item: Item)         // row written
    | Delete(item: Item)        // row deleted

  function ChildEvent(c: Config, s: State, child: Item, stage: Stage): Event {
    match stage
    case Numbering => Number(s.f.nextSeq)
    case MarkingSeen => MarkSeen(c.fp(child.url))
    case Enqueuing => Store(child)
    case _ => Quiet
  }

  function LinkEvent(c: Config, s: State, e: Expansion): Event {
    if e.next >= |e.links| then Quiet
    else
      var fp := c.fp(c.Norm(e.links[e.next]));
      if !c.InScope(e.host, e.links[e.next]) || fp in s.f.visited then Quiet else Accept(fp)
  }

  function EventOf(c: Config, s: State, p: Phase): Event {
    match p
    case Booting => var fp := c.fp(c.Norm(c.seed)); if fp in s.f.visited then Quiet else Accept(fp)
    case Seeding(child, stage) => ChildEvent(c, s, child, stage)
    case Busy(item, task) =>
      (match task
       case Expanding(e) => LinkEvent(c, s, e)
       case Pushing(_, child, stage) => ChildEvent(c, s, child, stage)
       case Deleting(_) => Delete(item)
       case _ => Quiet)
    case _ => Quiet
  }

  // How many more of token k there are, in hand and in the queue together.
  function Gain(c: Config, e: Event, k: Holding): int {
    match e
    case Accept(fp) => Bit(k == Unstored(fp))
    case Number(n) => Bit(k == Numbered(n))
    case MarkSeen(fp) => Bit(k == Marked(fp))
    case Store(item) =>
      Bit(k == Live(item)) - Bit(k == Unstored(c.fp(item.url))) - Bit(k == Marked(c.fp(item.url)))
      - Bit(k == Numbered(item.seqno))
    case Delete(item) => 0 - Bit(k == Live(item))
    case Quiet => 0
  }

  function InQueue(s: State, k: Holding): nat { if k.Live? then s.f.queue[k.item] else 0 }

  predicate SameItems(a: map<Fp, Row>, b: map<Fp, Row>) {
    a.Keys == b.Keys && forall fp :: fp in a ==> a[fp].item == b[fp].item
  }

  predicate TablesAfter(c: Config, s: State, e: Event, t: State) {
    && t.f.visited == s.f.visited + (if e.Accept? then {e.fp} else {})
    && t.d.seen == s.d.seen + (if e.MarkSeen? then {e.fp} else {})
    && t.h.done == s.h.done + (if e.Delete? then {c.fp(e.item.url)} else {})
    && (t.h.lost, t.h.crashes) == (s.h.lost, s.h.crashes)
    && t.f.nextSeq == s.f.nextSeq + (if e.Number? then 1 else 0)
    && (match e
        case Store(item) => t.d.rows == s.d.rows[c.fp(item.url) := Row(item, Queued)]
        case Delete(item) => t.d.rows == s.d.rows - {c.fp(item.url)}
        case _ => SameItems(s.d.rows, t.d.rows))
  }

  predicate Mirrors(c: Config, s: State, was: Phase, t: State, p: Phase, k: Holding) {
    var e := EventOf(c, s, was);
    TablesAfter(c, s, e, t) && Holds(c, p, k) + InQueue(t, k) == Holds(c, was, k) + InQueue(s, k) + Gain(c, e, k)
  }

  predicate Untouched(s: State, t: State) {
    && (t.f.visited, t.f.nextSeq, t.f.queue, t.d) == (s.f.visited, s.f.nextSeq, s.f.queue, s.d)
    && (t.h.done, t.h.lost, t.h.crashes) == (s.h.done, s.h.lost, s.h.crashes)
  }

  lemma PopMirrors(c: Config, s: State, at: PopStage, o: Oracle, k: Holding)
    requires PopEnabled(s, at, o)
    ensures var (p, t) := MovePop(s, at, o); Mirrors(c, s, Pop(at), t, p, k)
  {
    if at.Polling? { PollMirrors(c, s, at, o, k); } else { PopUntouched(s, at, o); }
  }

  lemma PollMirrors(c: Config, s: State, at: PopStage, o: Oracle, k: Holding)
    requires PopEnabled(s, at, o) && at.Polling?
    ensures var (p, t) := MovePop(s, at, o); Mirrors(c, s, Pop(at), t, p, k)
  {
    if s.f.queue == multiset{} { PollEmpty(s, at, o); } else { PollTakes(s, at, o); }
  }

  lemma PollEmpty(s: State, at: PopStage, o: Oracle)
    requires at.Polling? && s.f.queue == multiset{}
    ensures var (p, t) := MovePop(s, at, o); t == s && p.Pop?
  {
  }

  lemma PollTakes(s: State, at: PopStage, o: Oracle)
    requires at.Polling? && s.f.queue != multiset{} && IsTop(s.f.queue, o.item)
    ensures var (p, t) := MovePop(s, at, o);
      p == Busy(o.item, Leasing) && t == s.(f := s.f.(queue := t.f.queue))
      && forall item :: t.f.queue[item] == s.f.queue[item] - Bit(item == o.item)
  {
  }

  lemma PopUntouched(s: State, at: PopStage, o: Oracle)
    requires PopEnabled(s, at, o) && !at.Polling?
    ensures var (p, t) := MovePop(s, at, o); Untouched(s, t) && (p.Pop? || p.Exited?)
  {
  }

  // Most tasks only pass the item on.
  predicate PassesOn(s: State, item: Item, t: State, p: Phase) {
    Untouched(s, t) && p.Busy? && p.item == item && !p.task.Decrementing? && !p.task.Pushing?
  }

  lemma AdmitPassesOn(c: Config, s: State, item: Item, task: Task, o: Oracle)
    requires IsAdmission(task) && !task.Leasing?
    ensures var (p, t) := MoveAdmit(c, s, item, task, o); PassesOn(s, item, t, p)
  {
  }

  lemma FetchPassesOn(c: Config, s: State, item: Item, task: Task, o: Oracle)
    requires IsRecording(task)
    ensures var (p, t) := MoveFetch(c, s, item, task, o); PassesOn(s, item, t, p)
  {
  }

  lemma LinkMirrors(c: Config, s: State, item: Item, e: Expansion, k: Holding)
    ensures var (p, t) := MoveLink(c, s, item, e); Mirrors(c, s, Busy(item, Expanding(e)), t, p, k)
  {
    LinkTables(c, s, item, e);
  }

  lemma LinkTables(c: Config, s: State, item: Item, e: Expansion)
    ensures var (p, t) := MoveLink(c, s, item, e);
      && TablesAfter(c, s, LinkEvent(c, s, e), t) && t.f.queue == s.f.queue
      && p.Busy? && p.item == item && !p.task.Decrementing?
      && (if LinkEvent(c, s, e).Accept?
          then p.task.Pushing? && p.task.stage.Numbering? && c.fp(p.task.child.url) == LinkEvent(c, s, e).fp
          else !p.task.Pushing?)
  {
  }

  lemma ChildTables(c: Config, s: State, child: Item, stage: Stage, o: Oracle)
    requires PushEnabled(s, stage, o)
    ensures TablesAfter(c, s, ChildEvent(c, s, child, stage), PushEffect(c, s, child, stage, o))
  {
  }

  lemma ChildBalance(c: Config, s: State, child: Item, stage: Stage, o: Oracle, k: Holding)
    requires PushEnabled(s, stage, o)
    ensures
      var (next, left) := PushNext(s, child, stage);
      (if left.Some? then ChildHolds(c, next, left.value, k) else 0) + InQueue(PushEffect(c, s, child, stage, o), k)
        == ChildHolds(c, child, stage, k) + InQueue(s, k) + Gain(c, ChildEvent(c, s, child, stage), k)
  {
  }

  lemma PushMirrors(c: Config, s: State, item: Item, task: Task, o: Oracle, k: Holding)
    requires TaskEnabled(c, s, item, task, o) && task.Pushing?
    ensures var (p, t) := MoveTask(c, s, item, task, o); Mirrors(c, s, Busy(item, task), t, p, k)
  {
    ChildTables(c, s, task.child, task.stage, o);
    ChildBalance(c, s, task.child, task.stage, o, k);
  }

  lemma RowMirrors(c: Config, s: State, item: Item, task: Task, o: Oracle, k: Holding)
    requires TaskEnabled(c, s, item, task, o) && (task.Leasing? || task.Deleting?)
    ensures var (p, t) := MoveTask(c, s, item, task, o); Mirrors(c, s, Busy(item, task), t, p, k)
  {
    RowTables(c, s, item, task, o);
  }

  lemma RowTables(c: Config, s: State, item: Item, task: Task, o: Oracle)
    requires TaskEnabled(c, s, item, task, o) && (task.Leasing? || task.Deleting?)
    ensures var (p, t) := MoveTask(c, s, item, task, o);
      TablesAfter(c, s, EventOf(c, s, Busy(item, task)), t) && t.f.queue == s.f.queue
      && p.Busy? && p.item == item && !p.task.Pushing? && (p.task.Decrementing? <==> task.Deleting?)
  {
  }

  lemma TaskMirrors(c: Config, s: State, item: Item, task: Task, o: Oracle, k: Holding)
    requires TaskEnabled(c, s, item, task, o)
    ensures var (p, t) := MoveTask(c, s, item, task, o); Mirrors(c, s, Busy(item, task), t, p, k)
  {
    if task.Pushing? { PushMirrors(c, s, item, task, o, k); }
    else if task.Expanding? { LinkMirrors(c, s, item, task.e, k); }
    else if task.Leasing? || task.Deleting? { RowMirrors(c, s, item, task, o, k); }
    else if task.Decrementing? { DecrementMirrors(c, s, item, task, o, k); }
    else { QuietMirrors(c, s, item, task, o, k); }
  }

  lemma DecrementMirrors(c: Config, s: State, item: Item, task: Task, o: Oracle, k: Holding)
    requires TaskEnabled(c, s, item, task, o) && task.Decrementing?
    ensures var (p, t) := MoveTask(c, s, item, task, o); Mirrors(c, s, Busy(item, task), t, p, k)
  {
  }

  predicate IsQuiet(task: Task) {
    (IsAdmission(task) && !task.Leasing?) || IsRecording(task)
    || (IsPlain(task) && !task.Deleting? && !task.Decrementing?)
  }

  lemma QuietMirrors(c: Config, s: State, item: Item, task: Task, o: Oracle, k: Holding)
    requires TaskEnabled(c, s, item, task, o) && IsQuiet(task)
    ensures var (p, t) := MoveTask(c, s, item, task, o); Mirrors(c, s, Busy(item, task), t, p, k)
  {
    var (p, t) := MoveTask(c, s, item, task, o);
    if IsAdmission(task) { AdmitPassesOn(c, s, item, task, o); }
    else if IsRecording(task) { FetchPassesOn(c, s, item, task, o); }
    else { PlainPassesOn(c, s, item, task, o); }
    QuietBalance(c, s, item, task, t, p, k);
  }

  lemma PlainPassesOn(c: Config, s: State, item: Item, task: Task, o: Oracle)
    requires TaskEnabled(c, s, item, task, o) && IsPlain(task) && !task.Deleting? && !task.Decrementing?
    ensures var (p, t) := MoveTask(c, s, item, task, o); PassesOn(s, item, t, p)
  {
  }

  lemma QuietBalance(c: Config, s: State, item: Item, task: Task, t: State, p: Phase, k: Holding)
    requires PassesOn(s, item, t, p) && IsQuiet(task)
    ensures Mirrors(c, s, Busy(item, task), t, p, k)
  {
  }

  lemma MoveMirrors(c: Config, s: State, w: nat, o: Oracle, k: Holding)
    requires Enabled(c, s, w, o)
    ensures var (p, t) := Move(c, s, w, o); Mirrors(c, s, s.ws[w], t, p, k)
  {
    match s.ws[w]
    case Pop(at) => PopMirrors(c, s, at, o, k);
    case Busy(item, task) => TaskMirrors(c, s, item, task, o, k);
    case _ => LoopMirrors(c, s, w, o, k);
  }

  lemma LoopMirrors(c: Config, s: State, w: nat, o: Oracle, k: Holding)
    requires Enabled(c, s, w, o) && !s.ws[w].Pop? && !s.ws[w].Busy?
    ensures var (p, t) := Move(c, s, w, o); Mirrors(c, s, s.ws[w], t, p, k)
  {
    if s.ws[w].Seeding? { SeedMirrors(c, s, w, o, k); } else { IdleMirrors(c, s, w, o, k); }
  }

  lemma SeedMirrors(c: Config, s: State, w: nat, o: Oracle, k: Holding)
    requires Enabled(c, s, w, o) && s.ws[w].Seeding?
    ensures var (p, t) := Move(c, s, w, o); Mirrors(c, s, s.ws[w], t, p, k)
  {
    ChildTables(c, s, s.ws[w].child, s.ws[w].stage, o);
    ChildBalance(c, s, s.ws[w].child, s.ws[w].stage, o, k);
  }

  lemma IdleMirrors(c: Config, s: State, w: nat, o: Oracle, k: Holding)
    requires Enabled(c, s, w, o) && !s.ws[w].Pop? && !s.ws[w].Busy? && !s.ws[w].Seeding?
    ensures var (p, t) := Move(c, s, w, o); Mirrors(c, s, s.ws[w], t, p, k)
  {
  }

  // ----- what one step does, seen from outside -----

  function Total(c: Config, s: State, k: Holding): nat { Held(c, s.ws, k) + InQueue(s, k) }

  ghost predicate Changed(c: Config, s: State, e: Event, s': State) {
    TablesAfter(c, s, e, s') && forall k :: Total(c, s', k) == Total(c, s, k) + Gain(c, e, k)
  }

  // What the event presupposes.
  ghost predicate Due(c: Config, s: State, e: Event) {
    match e
    case Quiet => true
    case Accept(fp) => fp !in s.f.visited
    case Number(n) => n == s.f.nextSeq
    case MarkSeen(fp) => Total(c, s, Unstored(fp)) > 0 && forall other :: Total(c, s, Marked(other)) == 0
    case Store(item) =>
      Total(c, s, Unstored(c.fp(item.url))) > 0 && Total(c, s, Marked(c.fp(item.url))) > 0
      && Total(c, s, Numbered(item.seqno)) > 0
    case Delete(item) => Total(c, s, Live(item)) > 0
  }

  lemma StepChanged(c: Config, s: State, w: nat, o: Oracle)
    requires Enabled(c, s, w, o)
    ensures Changed(c, s, EventOf(c, s, s.ws[w]), Step(c, s, w, o)) && Due(c, s, EventOf(c, s, s.ws[w]))
  {
    var (p, t) := Move(c, s, w, o);
    var e := EventOf(c, s, s.ws[w]);
    MoveDisturbs(c, s, w, o);
    forall k: Holding ensures Total(c, Step(c, s, w, o), k) == Total(c, s, k) + Gain(c, e, k) {
      MoveMirrors(c, s, w, o, k);
      HeldMoved(c, s.ws, t.ws, k, w, o.pick, p);
    }
    MoveMirrors(c, s, w, o, Unstored(0));
    StepDue(c, s, w, o);
  }

  lemma StepDue(c: Config, s: State, w: nat, o: Oracle)
    requires Enabled(c, s, w, o)
    ensures Due(c, s, EventOf(c, s, s.ws[w]))
  {
    match EventOf(c, s, s.ws[w])
    case MarkSeen(fp) =>
      HeldAtLeast(c, s.ws, Unstored(fp), w);
      forall other ensures Total(c, s, Marked(other)) == 0 { NobodyInStore(c, s, other); }
    case Store(item) =>
      HeldAtLeast(c, s.ws, Unstored(c.fp(item.url)), w);
      HeldAtLeast(c, s.ws, Marked(c.fp(item.url)), w);
      HeldAtLeast(c, s.ws, Numbered(item.seqno), w);
    case Delete(item) => HeldAtLeast(c, s.ws, Live(item), w);
    case _ =>
  }

  lemma NobodyInStore(c: Config, s: State, fp: Fp)
    requires StoreFree(s.ws)
    ensures Total(c, s, Marked(fp)) == 0
  {
    forall i | 0 <= i < |s.ws| ensures Holds(c, s.ws[i], Marked(fp)) == 0 { assert !InStage(s.ws[i], Enqueuing); }
    HeldNone(c, s.ws, Marked(fp));
  }

  // ----- the mirror invariant -----

  predicate HasRow(c: Config, d: Tables, item: Item) {
    c.fp(item.url) in d.rows && d.rows[c.fp(item.url)].item == item
  }

  // One row per live item: queued, in hand, or on its way to the queue.
  ghost predicate RowsMatch(c: Config, s: State) {
    (forall fp :: fp in s.d.rows ==> c.fp(s.d.rows[fp].item.url) == fp) &&
    forall item :: Total(c, s, Live(item)) == Bit(HasRow(c, s.d, item))
  }

  function Settled(s: State, fp: Fp): int {
    Bit(fp in s.d.rows) + Bit(fp in s.h.done) + Bit(fp in s.h.lost)
  }

  // Every fingerprint ever accepted is in exactly one place.
  ghost predicate VisitedOnce(c: Config, s: State) {
    forall fp :: Total(c, s, Unstored(fp)) + Settled(s, fp) == Bit(fp in s.f.visited)
  }

  ghost predicate SeenOnce(c: Config, s: State) {
    forall fp :: Total(c, s, Marked(fp)) + Settled(s, fp) == Bit(fp in s.d.seen)
  }

  ghost predicate OneMarker(c: Config, s: State) {
    forall a, b :: Total(c, s, Marked(a)) > 0 && Total(c, s, Marked(b)) > 0 ==> a == b
  }

  // Sequence numbers of live items are unique and below the counter.
  ghost predicate SeqUnique(c: Config, s: State) {
    && (forall n: nat :: Total(c, s, Numbered(n)) <= Bit(n < s.f.nextSeq))
    && (forall fp :: fp in s.d.rows ==>
          s.d.rows[fp].item.seqno < s.f.nextSeq && Total(c, s, Numbered(s.d.rows[fp].item.seqno)) == 0)
    && SeqDistinct(s.d.rows)
  }

  predicate SeqDistinct(rows: map<Fp, Row>) {
    forall a, b :: a in rows && b in rows && a != b ==> rows[a].item.seqno != rows[b].item.seqno
  }

  ghost predicate Durable(c: Config, s: State) {
    RowsMatch(c, s) && VisitedOnce(c, s) && SeenOnce(c, s) && OneMarker(c, s) && SeqUnique(c, s)
    && |s.h.lost| <= s.h.crashes
  }

  lemma RowsMatchKept(c: Config, s: State, e: Event, s': State)
    requires RowsMatch(c, s) && VisitedOnce(c, s) && Changed(c, s, e, s') && Due(c, s, e)
    ensures RowsMatch(c, s')
  {
  }

  lemma OnceKept(c: Config, s: State, e: Event, s': State)
    requires RowsMatch(c, s) && VisitedOnce(c, s) && SeenOnce(c, s) && Changed(c, s, e, s') && Due(c, s, e)
    ensures VisitedOnce(c, s') && SeenOnce(c, s')
  {
    SettledKept(c, s, e, s');
    VisitedOnceKept(c, s, e, s');
    SeenOnceKept(c, s, e, s');
  }

  // Only a delete moves a fingerprint between the settled places; only a write adds one.
  lemma SettledKept(c: Config, s: State, e: Event, s': State)
    requires RowsMatch(c, s) && VisitedOnce(c, s) && Changed(c, s, e, s') && Due(c, s, e)
    ensures forall fp :: Settled(s', fp) == Settled(s, fp) + Bit(e.Store? && c.fp(e.item.url) == fp)
  {
  }

  lemma VisitedOnceKept(c: Config, s: State, e: Event, s': State)
    requires VisitedOnce(c, s) && Changed(c, s, e, s') && Due(c, s, e)
    requires forall fp :: Settled(s', fp) == Settled(s, fp) + Bit(e.Store? && c.fp(e.item.url) == fp)
    ensures VisitedOnce(c, s')
  {
  }

  lemma SeenOnceKept(c: Config, s: State, e: Event, s': State)
    requires VisitedOnce(c, s) && SeenOnce(c, s) && Changed(c, s, e, s') && Due(c, s, e)
    requires forall fp :: Settled(s', fp) == Settled(s, fp) + Bit(e.Store? && c.fp(e.item.url) == fp)
    ensures SeenOnce(c, s')
  {
  }

  lemma OneMarkerKept(c: Config, s: State, e: Event, s': State)
    requires OneMarker(c, s) && Changed(c, s, e, s') && Due(c, s, e)
    ensures OneMarker(c, s')
  {
  }

  lemma SeqUniqueKept(c: Config, s: State, e: Event, s': State)
    requires SeqUnique(c, s) && Changed(c, s, e, s') && Due(c, s, e)
    ensures SeqUnique(c, s')
  {
    NumberedKept(c, s, e, s');
    if e.Store? {
      assert Total(c, s, Numbered(e.item.seqno)) == 1;
      assert Total(c, s', Numbered(e.item.seqno)) == 0;
    }
    RowNumbersKept(c, s, e, s');
    DistinctKept(c, s, e, s');
  }

  lemma NumberedKept(c: Config, s: State, e: Event, s': State)
    requires SeqUnique(c, s) && Changed(c, s, e, s') && Due(c, s, e)
    ensures forall n: nat :: Total(c, s', Numbered(n)) <= Bit(n < s'.f.nextSeq)
  {
  }

  lemma RowNumbersKept(c: Config, s: State, e: Event, s': State)
    requires SeqUnique(c, s) && Changed(c, s, e, s') && Due(c, s, e)
    requires e.Store? ==> Total(c, s', Numbered(e.item.seqno)) == 0
    ensures forall fp :: fp in s'.d.rows ==>
      s'.d.rows[fp].item.seqno < s'.f.nextSeq && Total(c, s', Numbered(s'.d.rows[fp].item.seqno)) == 0
  {
  }

  lemma DistinctKept(c: Config, s: State, e: Event, s': State)
    requires SeqUnique(c, s) && Changed(c, s, e, s') && Due(c, s, e)
    ensures SeqDistinct(s'.d.rows)
  {
  }

  lemma DurableStep(c: Config, s: State, w: nat, o: Oracle)
    requires Durable(c, s) && Enabled(c, s, w, o)
    ensures Durable(c, Step(c, s, w, o))
  {
    var e := EventOf(c, s, s.ws[w]);
    StepChanged(c, s, w, o);
    RowsMatchKept(c, s, e, Step(c, s, w, o));
    OnceKept(c, s, e, Step(c, s, w, o));
    OneMarkerKept(c, s, e, Step(c, s, w, o));
    SeqUniqueKept(c, s, e, Step(c, s, w, o));
  }

  // ----- crash and restart -----

  // `load`: leases go back to the queue.
  function Requeue(d: Tables): Tables {
    d.(rows := map fp | fp in d.rows :: d.rows[fp].(lease := Queued))
  }

  // The largest sequence number stored, 0 if there is none.
  predicate IsMaxSeq(rows: map<Fp, Row>, m: nat) {
    (forall fp :: fp in rows ==> rows[fp].item.seqno <= m) &&
    (m == 0 || exists fp :: fp in rows && rows[fp].item.seqno == m)
  }

  lemma {:induction false} MaxSeqExists(rows: map<Fp, Row>) returns (m: nat)
    ensures IsMaxSeq(rows, m)
    decreases |rows|
  {
    m := 0;
    if fp :| fp in rows {
      var rest := rows - {fp};
      m := MaxSeqExists(rest);
      if rows[fp].item.seqno > m { m := rows[fp].item.seqno; }
      assert forall k :: k in rows ==> k == fp || (k in rest && rest[k] == rows[k]);
    }
  }

  // Fingerprints in `seen` that no row, past or present, accounts for.
  function Window(s: State): set<Fp> {
    set fp | fp in s.d.seen && fp !in s.d.rows && fp !in s.h.done && fp !in s.h.lost
  }

  // The next process: n workers on what `load` returned.
  function Restart(c: Config, s: State, n: nat, m: nat): State {
    Start(c, n, Requeue(s.d), m + 1,
          s.h.(dropped := 0, lost := s.h.lost + Window(s), crashes := s.h.crashes + 1))
  }

  ghost predicate RestartsAs(c: Config, s: State, n: nat, m: nat, s': State) {
    n >= 1 && IsMaxSeq(s.d.rows, m) && s' == Restart(c, s, n, m)
  }

  // The process dies in state s.
  ghost predicate Crash(c: Config, s: State, s': State) {
    exists n: nat, m: nat :: RestartsAs(c, s, n, m, s')
  }

  // Any number of processes on one store.
  ghost predicate LongRun(c: Config, run: seq<State>) {
    && |run| > 0 && (exists n: nat :: n >= 1 && run[0] == Fresh(c, n))
    && forall i :: 0 < i < |run| ==> Next(c, run[i - 1], run[i]) || Crash(c, run[i - 1], run[i])
  }

  lemma LongRunLast(c: Config, run: seq<State>)
    requires LongRun(c, run) && |run| > 1
    ensures LongRun(c, run[..|run| - 1]) && Last(run[..|run| - 1]) == run[|run| - 2]
    ensures Next(c, run[|run| - 2], Last(run)) || Crash(c, run[|run| - 2], Last(run))
  {
    assert Next(c, run[|run| - 1 - 1], run[|run| - 1]) || Crash(c, run[|run| - 1 - 1], run[|run| - 1]);
  }

  lemma StartHolds(c: Config, n: nat, k: Holding)
    ensures Held(c, Spawn(n), k) == 0
  {
    SpawnShape(n);
    HeldNone(c, Spawn(n), k);
  }

  lemma FreshDurable(c: Config, n: nat)
    ensures Durable(c, Fresh(c, n))
  {
    forall k ensures Total(c, Fresh(c, n), k) == 0 { StartHolds(c, n, k); }
  }

  // In `seen` without a row: exactly the fingerprint inside the mark_seen/enqueue window.
  lemma WindowIsMarked(c: Config, s: State, fp: Fp)
    requires SeenOnce(c, s)
    ensures fp in Window(s) <==> Held(c, s.ws, Marked(fp)) > 0
  {
    assert Total(c, s, Marked(fp)) == Held(c, s.ws, Marked(fp));
  }

  lemma WindowSmall(c: Config, s: State)
    requires SeenOnce(c, s) && OneMarker(c, s)
    ensures |Window(s)| <= 1
  {
    if a :| a in Window(s) {
      forall b | b in Window(s) ensures b == a { WindowIsMarked(c, s, a); WindowIsMarked(c, s, b); }
      assert Window(s) == {a};
    }
  }

  lemma CrashDurable(c: Config, s: State, s': State)
    requires Durable(c, s) && Crash(c, s, s')
    ensures Durable(c, s')
  {
    var n: nat, m: nat :| RestartsAs(c, s, n, m, s');
    WindowSmall(c, s);
    forall k: Holding ensures Held(c, s'.ws, k) == 0 { StartHolds(c, n, k); }
    RestartRows(c, s, s');
    RestartOnce(c, s, s');
    RestartSeq(c, s, s');
  }

  lemma RestartSeq(c: Config, s: State, s': State)
    requires SeqUnique(c, s) && s'.d == Requeue(s.d) && forall fp :: fp in s.d.rows ==> s.d.rows[fp].item.seqno < s'.f.nextSeq
    requires forall k: Holding :: Held(c, s'.ws, k) == 0
    ensures SeqUnique(c, s') && OneMarker(c, s')
  {
    forall n: nat ensures Total(c, s', Numbered(n)) == 0 { assert Held(c, s'.ws, Numbered(n)) == 0; }
    forall fp ensures Total(c, s', Marked(fp)) == 0 { assert Held(c, s'.ws, Marked(fp)) == 0; }
  }

  lemma RestartRows(c: Config, s: State, s': State)
    requires RowsMatch(c, s) && s'.d == Requeue(s.d)
    requires s'.f.queue == multiset(set fp | fp in s'.d.rows :: s'.d.rows[fp].item)
    requires forall k: Holding :: Held(c, s'.ws, k) == 0
    ensures RowsMatch(c, s')
  {
    forall item ensures Total(c, s', Live(item)) == Bit(HasRow(c, s'.d, item)) {
      assert Held(c, s'.ws, Live(item)) == 0;
    }
  }

  lemma RestartOnce(c: Config, s: State, s': State)
    requires SeenOnce(c, s) && s'.d == Requeue(s.d) && s'.f.visited == s.d.seen
    requires s'.h.done == s.h.done && s'.h.lost == s.h.lost + Window(s)
    requires forall k: Holding :: Held(c, s'.ws, k) == 0
    ensures VisitedOnce(c, s') && SeenOnce(c, s')
  {
    forall fp ensures Total(c, s', Unstored(fp)) == Total(c, s', Marked(fp)) == 0 {
      assert Held(c, s'.ws, Unstored(fp)) == 0 && Held(c, s'.ws, Marked(fp)) == 0;
    }
    forall fp ensures Settled(s', fp) == Bit(fp in s'.d.seen) {
      WindowIsMarked(c, s, fp);
      assert Total(c, s, Marked(fp)) + Settled(s, fp) == Bit(fp in s.d.seen);
    }
  }

  lemma {:induction false} DurableAlways(c: Config, run: seq<State>)
    requires LongRun(c, run)
    ensures Durable(c, Last(run))
  {
    var last := |run| - 1;
    if last == 0 {
      var n: nat :| n >= 1 && run[0] == Fresh(c, n);
      FreshDurable(c, n);
    } else {
      LongRunLast(c, run);
      DurableAlways(c, run[..last]);
      if Crash(c, run[last - 1], run[last]) {
        CrashDurable(c, run[last - 1], run[last]);
      } else {
        var w: nat, o :| Enabled(c, run[last - 1], w, o) && run[last] == Step(c, run[last - 1], w, o);
        DurableStep(c, run[last - 1], w, o);
      }
    }
  }

  // ----- what a restart finds -----

  // In hand and not completed, or stored and about to be queued.
  predicate Carries(p: Phase, item: Item) {
    (p.Busy? && p.item == item && !p.task.Decrementing?) ||
    (PushOf(p).Some? && PushOf(p).value.0 == item && PushOf(p).value.1 in {Counting, Heaping})
  }

  predicate IsLive(s: State, item: Item) {
    item in s.f.queue || exists i :: 0 <= i < |s.ws| && Carries(s.ws[i], item)
  }

  lemma LiveHeld(c: Config, s: State, item: Item)
    ensures Total(c, s, Live(item)) > 0 <==> IsLive(s, item)
  {
    if Held(c, s.ws, Live(item)) > 0 {
      var i := HeldBy(c, s.ws, Live(item));
      assert Carries(s.ws[i], item);
    }
    if i :| 0 <= i < |s.ws| && Carries(s.ws[i], item) { HeldAtLeast(c, s.ws, Live(item), i); }
  }

  // `load` rebuilds exactly the items enqueued and not completed, once each.
  lemma RestartRebuilds(c: Config, run: seq<State>, s': State, item: Item)
    requires LongRun(c, run) && Crash(c, Last(run), s')
    ensures s'.f.queue[item] == Bit(IsLive(Last(run), item))
    ensures s'.f.pending == |s'.f.queue|
  {
    var s := Last(run);
    DurableAlways(c, run);
    CrashDurable(c, s, s');
    LiveHeld(c, s, item);
    var n: nat, m: nat :| RestartsAs(c, s, n, m, s');
    StartHolds(c, n, Live(item));
    RowRequeued(c, s, s', item);
  }

  lemma RowRequeued(c: Config, s: State, s': State, item: Item)
    requires RowsMatch(c, s) && RowsMatch(c, s') && s'.d == Requeue(s.d) && Held(c, s'.ws, Live(item)) == 0
    ensures s'.f.queue[item] == Total(c, s, Live(item)) == Bit(Total(c, s, Live(item)) > 0)
  {
    assert Total(c, s, Live(item)) == Bit(HasRow(c, s.d, item));
    assert Total(c, s', Live(item)) == Bit(HasRow(c, s'.d, item));
  }

  // A crash loses at most one URL: the one between mark_seen and enqueue.
  lemma CrashLosesAtMostOne(c: Config, run: seq<State>, s': State)
    requires LongRun(c, run) && Crash(c, Last(run), s')
    ensures s'.h.lost == Last(run).h.lost + Window(Last(run)) && |Window(Last(run))| <= 1
    ensures forall fp :: fp in Window(Last(run)) <==>
      exists i :: 0 <= i < |Last(run).ws| && MarkedOnly(c, Last(run).ws[i], fp)
    ensures |s'.h.lost| <= s'.h.crashes
  {
    var s := Last(run);
    DurableAlways(c, run);
    CrashDurable(c, s, s');
    WindowSmall(c, s);
    forall fp ensures fp in Window(s) <==> exists i :: 0 <= i < |s.ws| && MarkedOnly(c, s.ws[i], fp) {
      WindowIsMarked(c, s, fp);
      MarkedOnlyHeld(c, s, fp);
    }
  }

  predicate MarkedOnly(c: Config, p: Phase, fp: Fp) {
    InStage(p, Enqueuing) && c.fp(PushOf(p).value.0.url) == fp
  }

  lemma MarkedOnlyHeld(c: Config, s: State, fp: Fp)
    ensures Held(c, s.ws, Marked(fp)) > 0 <==> exists i :: 0 <= i < |s.ws| && MarkedOnly(c, s.ws[i], fp)
  {
    if Held(c, s.ws, Marked(fp)) > 0 {
      var i := HeldBy(c, s.ws, Marked(fp));
      assert MarkedOnly(c, s.ws[i], fp);
    }
    if i :| 0 <= i < |s.ws| && MarkedOnly(c, s.ws[i], fp) { HeldAtLeast(c, s.ws, Marked(fp), i); }
  }

  // Nobody has an item in hand.
  predicate Idle(ws: seq<Phase>) { forall i :: 0 <= i < |ws| ==> !ws[i].Busy? && !ws[i].Seeding? }

  lemma QueuedOnce(c: Config, s: State, item: Item)
    requires RowsMatch(c, s) && Idle(s.ws)
    ensures s.f.queue[item] == Bit(IsLive(s, item))
  {
    HeldNone(c, s.ws, Live(item));
    LiveHeld(c, s, item);
    assert Total(c, s, Live(item)) == Bit(HasRow(c, s.d, item));
  }

  // A process that ends by itself leaves every fingerprint it visited in `seen`, and what it
  // left queued comes back.
  lemma CleanExitLosesNothing(c: Config, run: seq<State>, s': State)
    requires LongRun(c, run) && Crash(c, Last(run), s') && Finished(Last(run))
    ensures s'.h.lost == Last(run).h.lost && s'.f.queue == Last(run).f.queue && s'.f.visited == Last(run).f.visited
  {
    IdleCrash(c, run, s');
  }

  lemma IdleCrash(c: Config, run: seq<State>, s': State)
    requires LongRun(c, run) && Crash(c, Last(run), s') && Idle(Last(run).ws)
    ensures s'.h.lost == Last(run).h.lost && s'.f.queue == Last(run).f.queue && s'.f.visited == Last(run).f.visited
  {
    var s := Last(run);
    CrashLosesAtMostOne(c, run, s');
    NoWindowAtEnd(c, s);
    forall item ensures s'.f.queue[item] == s.f.queue[item] {
      RestartRebuilds(c, run, s', item);
      DurableAlways(c, run);
      QueuedOnce(c, s, item);
    }
    forall fp ensures fp in s'.f.visited <==> fp in s.f.visited { IdleIsSeen(c, run, fp); }
  }

  lemma IdleIsSeen(c: Config, run: seq<State>, fp: Fp)
    requires LongRun(c, run) && Idle(Last(run).ws)
    ensures fp in Last(run).d.seen <==> fp in Last(run).f.visited
  {
    var s := Last(run);
    DurableAlways(c, run);
    HeldNone(c, s.ws, Unstored(fp));
    HeldNone(c, s.ws, Marked(fp));
    assert Total(c, s, Marked(fp)) + Settled(s, fp) == Bit(fp in s.d.seen);
    assert Total(c, s, Unstored(fp)) + Settled(s, fp) == Bit(fp in s.f.visited);
  }

  lemma NoWindowAtEnd(c: Config, s: State)
    requires Idle(s.ws)
    ensures forall fp, i :: 0 <= i < |s.ws| ==> !MarkedOnly(c, s.ws[i], fp)
  {
  }

  // ----- what never comes back -----

  lemma StepHistory(c: Config, s: State, s': State)
    requires Next(c, s, s') || Crash(c, s, s')
    ensures s.h.done <= s'.h.done && s.h.lost <= s'.h.lost
  {
    if Next(c, s, s') {
      var w: nat, o :| Enabled(c, s, w, o) && s' == Step(c, s, w, o);
      StepChanged(c, s, w, o);
    }
  }

  lemma {:induction false} HistoryGrows(c: Config, run: seq<State>, i: nat)
    requires LongRun(c, run) && i < |run|
    ensures run[i].h.done <= Last(run).h.done && run[i].h.lost <= Last(run).h.lost
  {
    var last := |run| - 1;
    if i < last {
      LongRunLast(c, run);
      HistoryGrows(c, run[..last], i);
      StepHistory(c, run[last - 1], run[last]);
    }
  }

  // Completed once (fetched, failed, skipped or dropped by the budget), or lost by a
  // crash: over any number of restarts the URL stays in `visited`, so every push of
  // it is refused, and it is never queued or in hand again.
  lemma GoneForGood(c: Config, run: seq<State>, i: nat, item: Item)
    requires LongRun(c, run) && i < |run|
    requires c.fp(item.url) in run[i].h.done || c.fp(item.url) in run[i].h.lost
    ensures c.fp(item.url) in Last(run).f.visited && !IsLive(Last(run), item)
  {
    var s := Last(run);
    var fp := c.fp(item.url);
    DurableAlways(c, run);
    HistoryGrows(c, run, i);
    LiveHeld(c, s, item);
    assert Total(c, s, Unstored(fp)) + Settled(s, fp) == Bit(fp in s.f.visited);
    assert Total(c, s, Live(item)) == Bit(HasRow(c, s.d, item));
  }

  // ----- the pop order survives -----

  // Two live items never tie, so the heap order is strict; it depends only on what
  // the rows keep, so a restarted queue pops its items in the order the old one would have.
  lemma PopOrderStrict(c: Config, run: seq<State>, a: Item, b: Item)
    requires LongRun(c, run) && IsLive(Last(run), a) && IsLive(Last(run), b) && a != b
    ensures Above(a, b) <==> !Above(b, a)
  {
    var s := Last(run);
    DurableAlways(c, run);
    LiveHeld(c, s, a);
    LiveHeld(c, s, b);
    assert Total(c, s, Live(a)) == Bit(HasRow(c, s.d, a));
    assert Total(c, s, Live(b)) == Bit(HasRow(c, s.d, b));
  }

  // After a restart the first item popped is the first of everything that was live.
  lemma RestartPopsFirst(c: Config, run: seq<State>, s': State, top: Item)
    requires LongRun(c, run) && Crash(c, Last(run), s')
    ensures IsTop(s'.f.queue, top) <==>
      IsLive(Last(run), top) && forall other :: IsLive(Last(run), other) ==> Above(top, other)
  {
    forall item ensures item in s'.f.queue <==> IsLive(Last(run), item) { RestartRebuilds(c, run, s', item); }
  }

  // ----- what `try_push` makes of an item stays with it -----

  predicate Canonical(c: Config, item: Item) {
    c.Norm(item.url) == item.url && item.priority == Score(item.depth)
  }

  predicate PushesCanonical(c: Config, p: Phase) {
    PushOf(p).Some? ==> Canonical(c, PushOf(p).value.0)
  }

  predicate RowsCanonical(c: Config, rows: map<Fp, Row>) {
    forall fp :: fp in rows ==> Canonical(c, rows[fp].item)
  }

  predicate AllCanonical(c: Config, s: State) {
    RowsCanonical(c, s.d.rows) && forall i :: 0 <= i < |s.ws| ==> PushesCanonical(c, s.ws[i])
  }

  lemma MoveCanonical(c: Config, s: State, w: nat, o: Oracle)
    requires Enabled(c, s, w, o) && PushesCanonical(c, s.ws[w])
    ensures PushesCanonical(c, Move(c, s, w, o).0)
  {
    NormalizeIdempotent(c.seed, c.rules);
    if s.ws[w].Busy? && s.ws[w].task.Expanding? {
      var e := s.ws[w].task.e;
      if e.next < |e.links| { NormalizeIdempotent(e.links[e.next], c.rules); }
    }
  }

  lemma StepCanonical(c: Config, s: State, w: nat, o: Oracle)
    requires Enabled(c, s, w, o) && AllCanonical(c, s)
    ensures AllCanonical(c, Step(c, s, w, o))
  {
    var e := EventOf(c, s, s.ws[w]);
    StepChanged(c, s, w, o);
    MoveDisturbs(c, s, w, o);
    MoveCanonical(c, s, w, o);
    RowsStayCanonical(c, s, e, Step(c, s, w, o), s.ws[w]);
  }

  lemma RowsStayCanonical(c: Config, s: State, e: Event, s': State, p: Phase)
    requires RowsCanonical(c, s.d.rows) && TablesAfter(c, s, e, s') && PushesCanonical(c, p) && e == EventOf(c, s, p)
    ensures RowsCanonical(c, s'.d.rows)
  {
    forall fp | fp in s'.d.rows ensures Canonical(c, s'.d.rows[fp].item) {
      if e.Store? {
        assert PushOf(p).value.0 == e.item;
      } else {
        assert s'.d.rows[fp].item == s.d.rows[fp].item;
      }
    }
  }

  lemma StartCanonical(c: Config, n: nat, s: State)
    requires s.ws == Spawn(n) && RowsCanonical(c, s.d.rows)
    ensures AllCanonical(c, s)
  {
    SpawnShape(n);
  }

  lemma {:induction false} CanonicalAlways(c: Config, run: seq<State>)
    requires LongRun(c, run)
    ensures AllCanonical(c, Last(run))
  {
    if |run| == 1 {
      var n: nat :| n >= 1 && run[0] == Fresh(c, n);
      StartCanonical(c, n, run[0]);
    } else {
      LongRunLast(c, run);
      var s := run[|run| - 2];
      CanonicalAlways(c, run[..|run| - 1]);
      if Crash(c, s, Last(run)) {
        var n: nat, m: nat :| RestartsAs(c, s, n, m, Last(run));
        StartCanonical(c, n, Last(run));
      } else {
        var w: nat, o :| Enabled(c, s, w, o) && Last(run) == Step(c, s, w, o);
        StepCanonical(c, s, w, o);
      }
    }
  }

  // What a frontier needs from the tables it starts on.
  predicate Sane(c: Config, d: Tables) {
    && RowsCanonical(c, d.rows) && SeqDistinct(d.rows)
    && forall fp :: fp in d.rows ==> c.fp(d.rows[fp].item.url) == fp && fp in d.seen
  }

  // The tables are sane wherever a process may die.
  lemma TablesSane(c: Config, run: seq<State>)
    requires LongRun(c, run)
    ensures Sane(c, Last(run).d)
  {
    var s := Last(run);
    DurableAlways(c, run);
    CanonicalAlways(c, run);
    forall fp | fp in s.d.rows ensures fp in s.d.seen {
      assert Total(c, s, Marked(fp)) + Settled(s, fp) == Bit(fp in s.d.seen);
    }
  }

  // Whatever is queued or in hand carries a canonical URL, so pushing it again is refused.
  lemma RepushRefused(c: Config, run: seq<State>, item: Item)
    requires LongRun(c, run) && IsLive(Last(run), item)
    ensures c.Norm(item.url) == item.url && c.fp(c.Norm(item.url)) in Last(run).f.visited
  {
    var s := Last(run);
    DurableAlways(c, run);
    CanonicalAlways(c, run);
    LiveHeld(c, s, item);
    assert Total(c, s, Live(item)) == Bit(HasRow(c, s.d, item));
    var fp := c.fp(item.url);
    assert Total(c, s, Unstored(fp)) + Settled(s, fp) == Bit(fp in s.f.visited);
  }
}
