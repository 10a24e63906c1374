// What a crawl covers over any number of processes on one store. Every process starts
// with the literal host of the seed as its scope (crates/engine/src/lib.rs:105), and
// only the seed's answer can move it (:313-315); a resumed process need not see one.
module Resume {
  import opened Prelude
  import opened Urls
  import opened Protocol
  import opened Census
  import opened Wakeups
  import opened Recovery
  import opened Coverage

  function Root(c: Config): Url { c.Norm(c.seed) }

  // ----- the process a run is in -----

  lemma {:induction false} LastSession(c: Config, run: seq<State>) returns (tail: seq<State>)
    requires LongRun(c, run)
    ensures Session(c, tail) && Last(tail) == Last(run) && tail[0].h.dropped == 0
  {
    if |run| == 1 {
      var n: nat :| n >= 1 && run[0] == Fresh(c, n);
      tail := run;
    } else {
      LongRunLast(c, run);
      if Crash(c, run[|run| - 2], Last(run)) {
        var n: nat, m: nat :| RestartsAs(c, run[|run| - 2], n, m, Last(run));
        tail := [Last(run)];
      } else {
        var before := LastSession(c, run[..|run| - 1]);
        tail := SessionGoesOn(c, before, Last(run));
      }
    }
  }

  lemma SessionGoesOn(c: Config, run: seq<State>, s': State) returns (more: seq<State>)
    requires Session(c, run) && Next(c, Last(run), s')
    ensures Session(c, more) && Last(more) == s' && more[0] == run[0]
  {
    more := run + [s'];
    forall i | 0 < i < |more| ensures Next(c, more[i - 1], more[i]) {
      if i < |run| { assert Next(c, run[i - 1], run[i]); }
    }
  }

  // ----- what each thread's phase says, whatever the scope host -----

  // Some URL accepted so far has this fingerprint.
  ghost predicate Printed(c: Config, s: State, fp: Fp) { exists b :: b in s.h.born && c.fp(b.0) == fp }

  // The first n links, as far as they are in the scope of this host, are visited.
  predicate LinksSeen(c: Config, s: State, links: seq<Url>, host: string, n: nat) {
    forall k :: 0 <= k < n && k < |links| && c.InScope(host, links[k]) ==> c.fp(c.Norm(links[k])) in s.f.visited
  }

  ghost predicate LinksBorn(c: Config, s: State, links: seq<Url>, host: string) {
    forall k :: 0 <= k < |links| && c.InScope(host, links[k]) ==> Printed(c, s, c.fp(c.Norm(links[k])))
  }

  // A page's scope host: what the seed's answer says, or, below the seed, its own host.
  predicate HostOf(c: Config, site: Site, depth: nat, host: string) {
    host == ScopeOf(c, site) || (depth > 0 && host == c.seed.host)
  }

  predicate Legal(c: Config, site: Site, e: Expansion) {
    && site(e.item.url).Some? && e.links == site(e.item.url).value.links
    && e.item.depth < c.maxDepth && HostOf(c, site, e.item.depth, e.host)
  }

  predicate ChildOf(c: Config, e: Expansion, child: Item) {
    0 < e.next <= |e.links| && c.InScope(e.host, e.links[e.next - 1]) && child.url == c.Norm(e.links[e.next - 1])
  }

  // The links of an answered page were all looked at, under a host it may have.
  predicate PageSeen(c: Config, site: Site, s: State, key: (Url, nat)) {
    site(key.0).Some? && key.1 < c.maxDepth ==>
      LinksSeen(c, s, site(key.0).value.links, ScopeOf(c, site), |site(key.0).value.links|)
      || (key.1 > 0 && LinksSeen(c, s, site(key.0).value.links, c.seed.host, |site(key.0).value.links|))
  }

  ghost predicate PageBorn(c: Config, site: Site, s: State, key: (Url, nat)) {
    site(key.0).Some? && key.1 < c.maxDepth ==>
      LinksBorn(c, s, site(key.0).value.links, ScopeOf(c, site))
      || (key.1 > 0 && LinksBorn(c, s, site(key.0).value.links, c.seed.host))
  }

  predicate HasAnswer(site: Site, s: State, key: (Url, nat)) { (key, site(key.0)) in s.h.answers }

  predicate GoodExpansion(c: Config, site: Site, s: State, item: Item, e: Expansion) {
    HasAnswer(site, s, Key(item)) && Legal(c, site, e) && e.item == item && e.next <= |e.links|
    && LinksSeen(c, s, e.links, e.host, e.next)
  }

  predicate GoodTask(c: Config, site: Site, s: State, item: Item, task: Task) {
    match task
    case Answered(response) => HasAnswer(site, s, Key(item)) && site(item.url) == Some(response)
    case Scoping(links) =>
      && HasAnswer(site, s, Key(item)) && site(item.url).Some? && links == site(item.url).value.links
      && item.depth < c.maxDepth && (item.depth == 0 ==> s.scope == ScopeOf(c, site))
    case Expanding(e) => GoodExpansion(c, site, s, item, e)
    case Pushing(e, child, _) => GoodExpansion(c, site, s, item, e) && Key(child) in s.h.born && ChildOf(c, e, child)
    case Tallying(e) => GoodExpansion(c, site, s, item, e)
    case Recording(_) => HasAnswer(site, s, Key(item)) && PageSeen(c, site, s, Key(item))
    case Releasing => HasAnswer(site, s, Key(item)) && site(item.url).None?
    case Erring => HasAnswer(site, s, Key(item)) && site(item.url).None?
    case Logging => HasAnswer(site, s, Key(item)) && site(item.url).None?
    case Deleting(why) => !why.Dropped? && HasAnswer(site, s, Key(item)) && PageSeen(c, site, s, Key(item))
    case Rejecting => false
    case RejectNotifying => false
    case _ => true
  }

  predicate Good(c: Config, site: Site, s: State, p: Phase) {
    match p
    case Seeding(child, _) => Key(child) in s.h.born && child.url == Root(c)
    case Busy(item, task) => Key(item) in s.h.born && GoodTask(c, site, s, item, task)
    case _ => true
  }

  // ----- what the shared state and the tables say -----

  ghost predicate AllBorn(c: Config, s: State) {
    && (forall item :: item in s.f.queue ==> Key(item) in s.h.born)
    && (forall fp :: fp in s.d.rows ==> Key(s.d.rows[fp].item) in s.h.born)
    && (forall fp :: fp in s.f.visited || fp in s.d.seen ==> Printed(c, s, fp))
    && (forall b :: b in s.h.born && b.1 == 0 ==> b.0 == Root(c))
  }

  // A completed item was answered, and its links were all accepted at some time.
  ghost predicate DoneWell(c: Config, site: Site, s: State, key: (Url, nat)) {
    key in s.h.born && HasAnswer(site, s, key) && PageBorn(c, site, s, key)
  }

  ghost predicate DoneFine(c: Config, site: Site, s: State) {
    forall fp :: fp in s.h.done ==> exists key :: DoneWell(c, site, s, key) && c.fp(key.0) == fp
  }

  predicate Scoped(c: Config, site: Site, s: State) { s.scope == c.seed.host || s.scope == ScopeOf(c, site) }

  ghost predicate Tracked(c: Config, site: Site, s: State) {
    && AllBorn(c, s) && DoneFine(c, site, s) && Scoped(c, site, s)
    && forall i :: 0 <= i < |s.ws| ==> Good(c, site, s, s.ws[i])
  }

  // ----- one move -----

  // The environment answers as the site says, and the budget turns nothing down.
  predicate Fair(site: Site, t: State) { Honest(t, site) && t.h.dropped == 0 }

  lemma AdmitGood(c: Config, site: Site, s: State, item: Item, task: Task, o: Oracle)
    requires IsAdmission(task) && Key(item) in s.h.born && s.h.dropped == 0
    requires Fair(site, MoveAdmit(c, s, item, task, o).1)
    ensures var (p, t) := MoveAdmit(c, s, item, task, o); Good(c, site, t, p)
  {
    var t := MoveAdmit(c, s, item, task, o).1;
    if task.Skipping? { assert (Key(item), None) in t.h.answers; }
  }

  lemma FetchGood(c: Config, site: Site, s: State, item: Item, task: Task, o: Oracle)
    requires IsRecording(task) && AllBorn(c, s) && Scoped(c, site, s) && Good(c, site, s, Busy(item, task))
    requires Fair(site, MoveFetch(c, s, item, task, o).1)
    ensures var (p, t) := MoveFetch(c, s, item, task, o); Good(c, site, t, p)
  {
    var t := MoveFetch(c, s, item, task, o).1;
    if task.Fetching? { assert (Key(item), o.answer) in t.h.answers; }
    if task.Answered? && item.depth == 0 { assert item.url == Root(c); }
  }

  lemma LinkGood(c: Config, site: Site, s: State, item: Item, e: Expansion)
    requires Good(c, site, s, Busy(item, Expanding(e)))
    ensures var (p, t) := MoveLink(c, s, item, e); Good(c, site, t, p)
  {
  }

  lemma PushGood(c: Config, site: Site, s: State, item: Item, task: Task, o: Oracle)
    requires TaskEnabled(c, s, item, task, o) && task.Pushing? && Good(c, site, s, Busy(item, task))
    ensures var (p, t) := MoveTask(c, s, item, task, o); Good(c, site, t, p)
  {
  }

  lemma PlainGood(c: Config, site: Site, s: State, item: Item, task: Task, o: Oracle)
    requires TaskEnabled(c, s, item, task, o) && IsPlain(task) && Good(c, site, s, Busy(item, task))
    ensures var (p, t) := MoveTask(c, s, item, task, o); Good(c, site, t, p)
  {
  }

  lemma TaskGood(c: Config, site: Site, s: State, item: Item, task: Task, o: Oracle)
    requires TaskEnabled(c, s, item, task, o) && AllBorn(c, s) && Scoped(c, site, s) && s.h.dropped == 0
    requires Good(c, site, s, Busy(item, task)) && Fair(site, MoveTask(c, s, item, task, o).1)
    ensures var (p, t) := MoveTask(c, s, item, task, o); Good(c, site, t, p)
  {
    if task.Expanding? { LinkGood(c, site, s, item, task.e); }
    else if task.Pushing? { PushGood(c, site, s, item, task, o); }
    else if IsPlain(task) { PlainGood(c, site, s, item, task, o); }
    else if IsAdmission(task) { AdmitGood(c, site, s, item, task, o); }
    else { FetchGood(c, site, s, item, task, o); }
  }

  lemma MoveGood(c: Config, site: Site, s: State, w: nat, o: Oracle)
    requires Tracked(c, site, s) && Enabled(c, s, w, o) && s.h.dropped == 0 && Fair(site, Move(c, s, w, o).1)
    ensures var (p, t) := Move(c, s, w, o); Good(c, site, t, p)
  {
    assert Good(c, site, s, s.ws[w]);
    match s.ws[w]
    case Busy(item, task) => TaskGood(c, site, s, item, task, o);
    case Pop(at) => PopGood(c, site, s, at, o);
    case _ => LoopGood(c, site, s, w, o);
  }

  lemma PopGood(c: Config, site: Site, s: State, at: PopStage, o: Oracle)
    requires PopEnabled(s, at, o) && AllBorn(c, s)
    ensures var (p, t) := MovePop(s, at, o); Good(c, site, t, p)
  {
  }

  lemma LoopGood(c: Config, site: Site, s: State, w: nat, o: Oracle)
    requires Enabled(c, s, w, o) && !s.ws[w].Pop? && !s.ws[w].Busy? && Good(c, site, s, s.ws[w])
    ensures var (p, t) := Move(c, s, w, o); Good(c, site, t, p)
  {
  }

  // The other threads only gain.
  predicate Gains(c: Config, site: Site, s: State, t: State) {
    && s.h.born <= t.h.born && s.f.visited <= t.f.visited && s.h.answers <= t.h.answers
    && (t.scope == s.scope || t.scope == ScopeOf(c, site))
  }

  lemma OtherGood(c: Config, site: Site, s: State, t: State, was: Phase, p: Phase)
    requires Gains(c, site, s, t) && Good(c, site, s, was) && (p == was || (was.Pop? && p.Pop?))
    ensures Good(c, site, t, p)
  {
    if p.Busy? { OtherTaskGood(c, site, s, t, p.item, p.task); }
  }

  lemma OtherTaskGood(c: Config, site: Site, s: State, t: State, item: Item, task: Task)
    requires Gains(c, site, s, t) && GoodTask(c, site, s, item, task)
    ensures GoodTask(c, site, t, item, task)
  {
  }

  lemma MoveScopes(c: Config, site: Site, s: State, w: nat, o: Oracle)
    requires Tracked(c, site, s) && Enabled(c, s, w, o)
    ensures Gains(c, site, s, Move(c, s, w, o).1) && Scoped(c, site, Move(c, s, w, o).1)
  {
    MoveAfter(c, s, w, o);
    assert Good(c, site, s, s.ws[w]);
    if s.ws[w].Busy? && s.ws[w].task.Answered? && s.ws[w].item.depth == 0 {
      assert Key(s.ws[w].item) in s.h.born && s.ws[w].item.url == Root(c);
    }
  }

  lemma OthersGood(c: Config, site: Site, s: State, w: nat, o: Oracle)
    requires Tracked(c, site, s) && Enabled(c, s, w, o)
    ensures forall i :: 0 <= i < |s.ws| && i != w ==> Good(c, site, Move(c, s, w, o).1, Move(c, s, w, o).1.ws[i])
  {
    var t := Move(c, s, w, o).1;
    MoveScopes(c, site, s, w, o);
    MoveDisturbs(c, s, w, o);
    forall i | 0 <= i < |s.ws| && i != w ensures Good(c, site, t, t.ws[i]) {
      assert Good(c, site, s, s.ws[i]);
      OtherGood(c, site, s, t, s.ws[i], t.ws[i]);
    }
  }

  // What a move adds comes from an accepted item.
  ghost predicate SourceKnown(c: Config, s: State, turn: Turn, e: Event) {
    && (turn.NewChild? && turn.child.depth == 0 ==> turn.child.url == Root(c))
    && (turn.Enqueues? ==> Key(turn.child) in s.h.born)
    && (e.Store? ==> Key(e.item) in s.h.born)
    && (e.MarkSeen? ==> Printed(c, s, e.fp))
  }

  lemma MoveSourceKnown(c: Config, site: Site, s: State, w: nat, o: Oracle)
    requires Tracked(c, site, s) && Enabled(c, s, w, o)
    ensures SourceKnown(c, s, TurnOf(c, s, s.ws[w], o), EventOf(c, s, s.ws[w]))
  {
    assert Good(c, site, s, s.ws[w]);
    if PushOf(s.ws[w]).Some? { assert Key(PushOf(s.ws[w]).value.0) in s.h.born; }
  }

  lemma PrintedStays(c: Config, s: State, t: State)
    requires s.h.born <= t.h.born
    ensures forall fp :: Printed(c, s, fp) ==> Printed(c, t, fp)
  {
    forall fp | Printed(c, s, fp) ensures Printed(c, t, fp) {
      var b :| b in s.h.born && c.fp(b.0) == fp;
      assert b in t.h.born;
    }
  }

  lemma AllBornKept(c: Config, s: State, turn: Turn, e: Event, t: State)
    requires AllBorn(c, s) && After(c, s, turn, t) && TablesAfter(c, s, e, t) && SourceKnown(c, s, turn, e)
    ensures AllBorn(c, t)
  {
    PrintedStays(c, s, t);
    if turn.NewChild? { assert Key(turn.child) in t.h.born; }
    RowsBornKept(c, s, turn, e, t);
  }

  lemma RowsBornKept(c: Config, s: State, turn: Turn, e: Event, t: State)
    requires AllBorn(c, s) && After(c, s, turn, t) && TablesAfter(c, s, e, t) && SourceKnown(c, s, turn, e)
    ensures forall fp :: fp in t.d.rows ==> Key(t.d.rows[fp].item) in t.h.born
  {
    forall fp | fp in t.d.rows ensures Key(t.d.rows[fp].item) in t.h.born {
      if !(e.Store? && fp == c.fp(e.item.url)) { assert fp in s.d.rows && t.d.rows[fp].item == s.d.rows[fp].item; }
    }
  }

  lemma WellStays(c: Config, site: Site, s: State, t: State, key: (Url, nat))
    requires s.h.born <= t.h.born && s.h.answers <= t.h.answers && DoneWell(c, site, s, key)
    ensures DoneWell(c, site, t, key)
  {
    PrintedStays(c, s, t);
  }

  // What is visited was accepted.
  lemma SeenIsBorn(c: Config, site: Site, s: State, key: (Url, nat))
    requires AllBorn(c, s) && PageSeen(c, site, s, key)
    ensures PageBorn(c, site, s, key)
  {
  }

  lemma DoneKept(c: Config, site: Site, s: State, w: nat, o: Oracle)
    requires Tracked(c, site, s) && Enabled(c, s, w, o)
    ensures DoneFine(c, site, Move(c, s, w, o).1)
  {
    var t := Move(c, s, w, o).1;
    MoveMirrors(c, s, w, o, Marked(0));
    MoveScopes(c, site, s, w, o);
    forall fp | fp in t.h.done ensures exists key :: DoneWell(c, site, t, key) && c.fp(key.0) == fp {
      var key;
      if fp in s.h.done {
        key :| DoneWell(c, site, s, key) && c.fp(key.0) == fp;
      } else {
        key := DeletedWell(c, site, s, w, fp);
      }
      WellStays(c, site, s, t, key);
    }
  }

  lemma DeletedWell(c: Config, site: Site, s: State, w: nat, fp: Fp) returns (key: (Url, nat))
    requires Tracked(c, site, s) && w < |s.ws|
    requires EventOf(c, s, s.ws[w]).Delete? && fp == c.fp(EventOf(c, s, s.ws[w]).item.url)
    ensures DoneWell(c, site, s, key) && c.fp(key.0) == fp
  {
    assert Good(c, site, s, s.ws[w]);
    key := Key(s.ws[w].item);
    SeenIsBorn(c, site, s, key);
  }

  lemma TrackedStep(c: Config, site: Site, s: State, w: nat, o: Oracle)
    requires Tracked(c, site, s) && Enabled(c, s, w, o) && s.h.dropped == 0 && Fair(site, Step(c, s, w, o))
    ensures Tracked(c, site, Step(c, s, w, o))
  {
    var (p, t) := Move(c, s, w, o);
    MoveAfter(c, s, w, o);
    MoveMirrors(c, s, w, o, Marked(0));
    MoveSourceKnown(c, site, s, w, o);
    AllBornKept(c, s, TurnOf(c, s, s.ws[w], o), EventOf(c, s, s.ws[w]), t);
    MoveScopes(c, site, s, w, o);
    DoneKept(c, site, s, w, o);
    MoveGood(c, site, s, w, o);
    OthersGood(c, site, s, w, o);
    TrackedAssembled(c, site, t, w, p);
  }

  // None of this looks at the other threads' phases.
  lemma TrackedAssembled(c: Config, site: Site, t: State, w: nat, p: Phase)
    requires w < |t.ws| && AllBorn(c, t) && DoneFine(c, site, t) && Scoped(c, site, t) && Good(c, site, t, p)
    requires forall i :: 0 <= i < |t.ws| && i != w ==> Good(c, site, t, t.ws[i])
    ensures Tracked(c, site, t.(ws := t.ws[w := p]))
  {
    var s' := t.(ws := t.ws[w := p]);
    forall i | 0 <= i < |s'.ws| ensures Good(c, site, s', s'.ws[i]) {
      OtherGood(c, site, t, s', s'.ws[i], s'.ws[i]);
    }
    BornInCrew(c, site, t, s'.ws);
  }

  lemma BornInCrew(c: Config, site: Site, t: State, ws: seq<Phase>)
    requires AllBorn(c, t) && DoneFine(c, site, t)
    ensures AllBorn(c, t.(ws := ws)) && DoneFine(c, site, t.(ws := ws))
  {
    var s' := t.(ws := ws);
    PrintedStays(c, t, s');
    forall fp | fp in s'.h.done ensures exists key :: DoneWell(c, site, s', key) && c.fp(key.0) == fp {
      var key :| DoneWell(c, site, t, key) && c.fp(key.0) == fp;
      WellStays(c, site, t, s', key);
    }
  }

  // ----- crashes -----

  lemma TrackedCrash(c: Config, site: Site, s: State, s': State)
    requires Tracked(c, site, s) && Crash(c, s, s')
    ensures Tracked(c, site, s')
  {
    var n: nat, m: nat :| RestartsAs(c, s, n, m, s');
    SpawnShape(n);
    PrintedStays(c, s, s');
    forall fp | fp in s'.h.done ensures exists key :: DoneWell(c, site, s', key) && c.fp(key.0) == fp {
      var key :| DoneWell(c, site, s, key) && c.fp(key.0) == fp;
      WellStays(c, site, s, s', key);
    }
  }

  // No process drops an item for the budget.
  predicate Undropped(run: seq<State>) { forall i :: 0 <= i < |run| ==> run[i].h.dropped == 0 }

  // Any number of processes that are answered as the site says and drop nothing.
  ghost predicate FairRun(c: Config, site: Site, run: seq<State>) {
    LongRun(c, run) && Honest(Last(run), site) && Undropped(run)
  }

  lemma FairBefore(c: Config, site: Site, run: seq<State>)
    requires FairRun(c, site, run) && |run| > 1
    ensures FairRun(c, site, run[..|run| - 1])
  {
    LongRunLast(c, run);
    var s := run[|run| - 2];
    if Next(c, s, Last(run)) {
      var w: nat, o :| Enabled(c, s, w, o) && Last(run) == Step(c, s, w, o);
      MoveAfter(c, s, w, o);
    }
  }

  lemma {:induction false} TrackedAlways(c: Config, site: Site, run: seq<State>)
    requires FairRun(c, site, run)
    ensures Tracked(c, site, Last(run))
  {
    if |run| == 1 {
      var n: nat :| n >= 1 && run[0] == Fresh(c, n);
      SpawnShape(n);
    } else {
      var s := run[|run| - 2];
      LongRunLast(c, run);
      FairBefore(c, site, run);
      TrackedAlways(c, site, run[..|run| - 1]);
      if Crash(c, s, Last(run)) {
        TrackedCrash(c, site, s, Last(run));
      } else {
        var w: nat, o :| Enabled(c, s, w, o) && Last(run) == Step(c, s, w, o);
        TrackedStep(c, site, s, w, o);
      }
    }
  }

  // ----- where the scope host does not matter -----

  // The hosts a page may have all give its links the same scope.
  predicate Steady(c: Config, site: Site) {
    !c.sameDomain || ScopeOf(c, site) == c.seed.host || c.maxDepth <= 1
  }

  lemma SameScope(c: Config, site: Site, depth: nat, host: string, link: Url)
    requires Steady(c, site) && HostOf(c, site, depth, host) && depth < c.maxDepth
    ensures c.InScope(host, link) <==> c.InScope(ScopeOf(c, site), link)
  {
  }

  ghost predicate BornReached(c: Config, site: Site, s: State) {
    forall b :: b in s.h.born ==> Reach(c, site, b.0, b.1) && b.1 <= c.maxDepth
  }

  lemma RootReached(c: Config, site: Site)
    ensures Reach(c, site, Root(c), 0)
  {
  }

  // A child claimed while a page is expanded is one of the page's links.
  lemma LinkTurnLinks(c: Config, site: Site, s: State, item: Item, e: Expansion)
    requires Steady(c, site) && GoodExpansion(c, site, s, item, e) && LinkTurn(c, s, item, e).NewChild?
    ensures Links(c, site, item.url, LinkTurn(c, s, item, e).child.url)
    ensures LinkTurn(c, s, item, e).child.depth == item.depth + 1 <= c.maxDepth
  {
    SameScope(c, site, item.depth, e.host, e.links[e.next]);
    assert site(item.url).value.links[e.next] == e.links[e.next];
  }

  lemma NewReached(c: Config, site: Site, s: State, w: nat, o: Oracle)
    requires Steady(c, site) && Tracked(c, site, s) && BornReached(c, site, s) && Enabled(c, s, w, o)
    ensures var turn := TurnOf(c, s, s.ws[w], o);
      turn.NewChild? ==> Reach(c, site, turn.child.url, turn.child.depth) && turn.child.depth <= c.maxDepth
  {
    assert Good(c, site, s, s.ws[w]);
    RootReached(c, site);
    if s.ws[w].Busy? && TurnOf(c, s, s.ws[w], o).NewChild? {
      var item := s.ws[w].item;
      LinkTurnLinks(c, site, s, item, s.ws[w].task.e);
      assert Reach(c, site, Key(item).0, Key(item).1);
      ReachNext(c, site, item.url, LinkTurn(c, s, item, s.ws[w].task.e).child.url, item.depth);
    }
  }

  lemma BornReachedKept(c: Config, site: Site, s: State, turn: Turn, t: State)
    requires BornReached(c, site, s) && After(c, s, turn, t)
    requires turn.NewChild? ==> Reach(c, site, turn.child.url, turn.child.depth) && turn.child.depth <= c.maxDepth
    ensures BornReached(c, site, t)
  {
  }

  // ----- what was accepted can still be reached from what is left -----

  ghost predicate PageLinks(c: Config, site: Site, item: Item, fp: Fp) {
    item.depth < c.maxDepth && exists to :: Links(c, site, item.url, to) && c.fp(to) == fp
  }

  ghost predicate RowLinks(c: Config, site: Site, d: Tables, fp: Fp) {
    exists r :: r in d.rows && PageLinks(c, site, d.rows[r].item, fp)
  }

  predicate RootToCome(c: Config, s: State, fp: Fp) { fp == c.fp(Root(c)) && s.ws != [] && s.ws[0].Booting? }

  // Visited, or linked from a page not completed, or the seed of a process that starts.
  ghost predicate Backed(c: Config, site: Site, s: State, fp: Fp) {
    fp in s.f.visited || RowLinks(c, site, s.d, fp) || RootToCome(c, s, fp)
  }

  ghost predicate BornBacked(c: Config, site: Site, s: State) {
    forall b :: b in s.h.born ==> Backed(c, site, s, c.fp(b.0))
  }

  // The links of a page about to be completed are visited.
  lemma CompletedIsSeen(c: Config, site: Site, s: State, key: (Url, nat), to: Url)
    requires Steady(c, site) && PageSeen(c, site, s, key) && key.1 < c.maxDepth && Links(c, site, key.0, to)
    ensures c.fp(to) in s.f.visited
  {
    var links := site(key.0).value.links;
    var k :| 0 <= k < |links| && c.InScope(ScopeOf(c, site), links[k]) && c.Norm(links[k]) == to;
  }

  lemma RowLinksKept(c: Config, site: Site, s: State, w: nat, o: Oracle, fp: Fp)
    requires Steady(c, site) && Tracked(c, site, s) && Durable(c, s) && Enabled(c, s, w, o) && RowLinks(c, site, s.d, fp)
    ensures Backed(c, site, Step(c, s, w, o), fp)
  {
    var s' := Step(c, s, w, o);
    var e := EventOf(c, s, s.ws[w]);
    StepChanged(c, s, w, o);
    var r :| r in s.d.rows && PageLinks(c, site, s.d.rows[r].item, fp);
    if e.Delete? && r == c.fp(e.item.url) {
      DeletedLinks(c, site, s, w, fp);
    } else {
      RowStays(c, s, e, s', r);
    }
  }

  lemma RowStays(c: Config, s: State, e: Event, s': State, r: Fp)
    requires VisitedOnce(c, s) && TablesAfter(c, s, e, s') && Due(c, s, e) && r in s.d.rows
    requires e.Delete? ==> r != c.fp(e.item.url)
    ensures r in s'.d.rows && s'.d.rows[r].item == s.d.rows[r].item
  {
    if e.Store? {
      var fp := c.fp(e.item.url);
      assert Total(c, s, Unstored(fp)) + Settled(s, fp) == Bit(fp in s.f.visited);
    }
  }

  lemma DeletedLinks(c: Config, site: Site, s: State, w: nat, fp: Fp)
    requires Steady(c, site) && Tracked(c, site, s) && RowsMatch(c, s) && w < |s.ws|
    requires EventOf(c, s, s.ws[w]).Delete? && Due(c, s, EventOf(c, s, s.ws[w]))
    requires var r := c.fp(EventOf(c, s, s.ws[w]).item.url); r in s.d.rows && PageLinks(c, site, s.d.rows[r].item, fp)
    ensures fp in s.f.visited
  {
    var item := s.ws[w].item;
    assert Good(c, site, s, s.ws[w]);
    assert Total(c, s, Live(item)) == Bit(HasRow(c, s.d, item));
    var to :| Links(c, site, item.url, to) && c.fp(to) == fp;
    CompletedIsSeen(c, site, s, Key(item), to);
  }

  // Main leaves Booting only with the seed visited.
  lemma RootCame(c: Config, s: State, w: nat, o: Oracle, fp: Fp)
    requires Enabled(c, s, w, o) && RootToCome(c, s, fp)
    ensures fp in Step(c, s, w, o).f.visited || RootToCome(c, Step(c, s, w, o), fp)
  {
    MoveDisturbs(c, s, w, o);
    MoveAfter(c, s, w, o);
  }

  lemma BackedStep(c: Config, site: Site, s: State, w: nat, o: Oracle)
    requires Steady(c, site) && Tracked(c, site, s) && Durable(c, s) && BornBacked(c, site, s) && Enabled(c, s, w, o)
    ensures BornBacked(c, site, Step(c, s, w, o))
  {
    var s' := Step(c, s, w, o);
    MoveAfter(c, s, w, o);
    forall b | b in s'.h.born ensures Backed(c, site, s', c.fp(b.0)) {
      if b in s.h.born {
        assert Backed(c, site, s, c.fp(b.0));
        BackedStays(c, site, s, w, o, c.fp(b.0));
      }
    }
  }

  lemma BackedStays(c: Config, site: Site, s: State, w: nat, o: Oracle, fp: Fp)
    requires Steady(c, site) && Tracked(c, site, s) && Durable(c, s) && Enabled(c, s, w, o) && Backed(c, site, s, fp)
    ensures Backed(c, site, Step(c, s, w, o), fp)
  {
    MoveAfter(c, s, w, o);
    if fp in s.f.visited {
      assert fp in Step(c, s, w, o).f.visited;
    } else if RowLinks(c, site, s.d, fp) {
      RowLinksKept(c, site, s, w, o, fp);
    } else {
      RootCame(c, s, w, o, fp);
    }
  }

  // Claimed but not in `seen`: the page that links to it still has its row.
  lemma ClaimBacked(c: Config, site: Site, s: State, fp: Fp)
    requires Steady(c, site) && Tracked(c, site, s) && Durable(c, s) && fp in s.f.visited && fp !in s.d.seen
    ensures RowLinks(c, site, s.d, fp) || fp == c.fp(Root(c))
  {
    assert Total(c, s, Marked(fp)) + Settled(s, fp) == Bit(fp in s.d.seen);
    assert Total(c, s, Unstored(fp)) + Settled(s, fp) == Bit(fp in s.f.visited);
    var i := HeldBy(c, s.ws, Unstored(fp));
    assert Good(c, site, s, s.ws[i]);
    if s.ws[i].Busy? { PushBacked(c, site, s, i, fp); }
  }

  lemma PushBacked(c: Config, site: Site, s: State, i: nat, fp: Fp)
    requires Steady(c, site) && RowsMatch(c, s) && i < |s.ws| && Good(c, site, s, s.ws[i])
    requires s.ws[i].Busy? && Holds(c, s.ws[i], Unstored(fp)) > 0
    ensures RowLinks(c, site, s.d, fp)
  {
    var item, task := s.ws[i].item, s.ws[i].task;
    HeldAtLeast(c, s.ws, Live(item), i);
    assert Total(c, s, Live(item)) == Bit(HasRow(c, s.d, item));
    var e := task.e;
    SameScope(c, site, item.depth, e.host, e.links[e.next - 1]);
    assert site(item.url).value.links[e.next - 1] == e.links[e.next - 1];
    assert Links(c, site, item.url, task.child.url);
    assert PageLinks(c, site, s.d.rows[c.fp(item.url)].item, fp);
  }

  lemma RequeuedLinks(c: Config, site: Site, d: Tables, fp: Fp)
    requires RowLinks(c, site, d, fp)
    ensures RowLinks(c, site, Requeue(d), fp)
  {
    var r :| r in d.rows && PageLinks(c, site, d.rows[r].item, fp);
    assert r in Requeue(d).rows && Requeue(d).rows[r].item == d.rows[r].item;
  }

  lemma BackedCrash(c: Config, site: Site, s: State, s': State)
    requires Steady(c, site) && Tracked(c, site, s) && Durable(c, s) && BornBacked(c, site, s) && Crash(c, s, s')
    ensures BornBacked(c, site, s')
  {
    var n: nat, m: nat :| RestartsAs(c, s, n, m, s');
    SpawnShape(n);
    forall b | b in s'.h.born ensures Backed(c, site, s', c.fp(b.0)) {
      var fp := c.fp(b.0);
      assert Backed(c, site, s, fp);
      if fp in s.f.visited && fp !in s.d.seen { ClaimBacked(c, site, s, fp); }
      if RowLinks(c, site, s.d, fp) { RequeuedLinks(c, site, s.d, fp); }
    }
  }

  lemma {:induction false} BackedAlways(c: Config, site: Site, run: seq<State>)
    requires Steady(c, site) && FairRun(c, site, run)
    ensures BornReached(c, site, Last(run)) && BornBacked(c, site, Last(run))
  {
    if |run| > 1 {
      var s := run[|run| - 2];
      LongRunLast(c, run);
      FairBefore(c, site, run);
      TrackedAlways(c, site, run[..|run| - 1]);
      DurableAlways(c, run[..|run| - 1]);
      BackedAlways(c, site, run[..|run| - 1]);
      if Crash(c, s, Last(run)) {
        BackedCrash(c, site, s, Last(run));
      } else {
        var w: nat, o :| Enabled(c, s, w, o) && Last(run) == Step(c, s, w, o);
        BackedStep(c, site, s, w, o);
        MoveAfter(c, s, w, o);
        NewReached(c, site, s, w, o);
        BornReachedKept(c, site, s, TurnOf(c, s, s.ws[w], o), Last(run));
      }
    }
  }

  // ----- a drained end -----

  // The last process found nothing left, and no process lost anything in the window.
  ghost predicate Drained(c: Config, site: Site, run: seq<State>) {
    FairRun(c, site, run) && Finished(Last(run)) && !Last(run).f.stopped && Last(run).h.lost == {}
  }

  lemma NothingLive(c: Config, run: seq<State>)
    requires LongRun(c, run) && Finished(Last(run)) && !Last(run).f.stopped
    ensures Last(run).f.queue == multiset{} && Last(run).d.rows == map[]
  {
    var s := Last(run);
    var tail := LastSession(c, run);
    DrainedQueue(c, tail);
    DurableAlways(c, run);
    if fp :| fp in s.d.rows { RowIsLive(c, s, fp); }
    assert s.d.rows == map[];
  }

  lemma RowIsLive(c: Config, s: State, fp: Fp)
    requires RowsMatch(c, s) && fp in s.d.rows
    ensures IsLive(s, s.d.rows[fp].item)
  {
    var item := s.d.rows[fp].item;
    assert Total(c, s, Live(item)) == Bit(HasRow(c, s.d, item));
    LiveHeld(c, s, item);
  }

  lemma VisitedIsDone(c: Config, run: seq<State>, fp: Fp)
    requires LongRun(c, run) && Finished(Last(run)) && !Last(run).f.stopped && Last(run).h.lost == {}
    requires fp in Last(run).f.visited
    ensures fp in Last(run).h.done
  {
    var s := Last(run);
    NothingLive(c, run);
    DurableAlways(c, run);
    HeldNone(c, s.ws, Unstored(fp));
    assert Total(c, s, Unstored(fp)) + Settled(s, fp) == Bit(fp in s.f.visited);
  }

  lemma RootVisited(c: Config, run: seq<State>)
    requires LongRun(c, run) && Finished(Last(run))
    ensures c.fp(Root(c)) in Last(run).f.visited
  {
    var tail := LastSession(c, run);
    SeedPushed(c, tail);
  }

  // The answered item behind a fingerprint.
  lemma DoneItem(c: Config, site: Site, run: seq<State>, fp: Fp) returns (key: (Url, nat))
    requires Drained(c, site, run) && fp in Last(run).f.visited
    ensures DoneWell(c, site, Last(run), key) && c.fp(key.0) == fp
  {
    TrackedAlways(c, site, run);
    VisitedIsDone(c, run, fp);
    key :| DoneWell(c, site, Last(run), key) && c.fp(key.0) == fp;
  }

  lemma SamePrint(c: Config, site: Site, a: Url, d: nat, b: Url, e: nat, n: nat)
    requires Distinct(c, site, n) && Reach(c, site, a, d) && Reach(c, site, b, e) && d <= n && e <= n && c.fp(a) == c.fp(b)
    ensures a == b
  {
    assert ReachWithin(c, site, a, n) && ReachWithin(c, site, b, n);
  }

  // Every URL accepted, in whichever process, was answered in the end.
  lemma ClaimedIsDone(c: Config, site: Site, run: seq<State>, url: Url) returns (d: nat)
    requires Steady(c, site) && Drained(c, site, run) && Distinct(c, site, c.maxDepth + 1) && Claimed(Last(run), url)
    ensures DoneWell(c, site, Last(run), (url, d)) && Reach(c, site, url, d) && d <= c.maxDepth
  {
    var s := Last(run);
    var k: nat :| (url, k) in s.h.born;
    BackedAlways(c, site, run);
    NothingLive(c, run);
    assert Backed(c, site, s, c.fp((url, k).0));
    var key := DoneItem(c, site, run, c.fp(url));
    assert Reach(c, site, (url, k).0, (url, k).1) && Reach(c, site, key.0, key.1);
    SamePrint(c, site, url, k, key.0, key.1, c.maxDepth + 1);
    d := key.1;
  }

  // The links of a completed page were accepted.
  lemma DoneLinks(c: Config, site: Site, s: State, key: (Url, nat), to: Url)
    requires Steady(c, site) && DoneWell(c, site, s, key) && Links(c, site, key.0, to) && key.1 < c.maxDepth
    ensures Printed(c, s, c.fp(to))
  {
    var links := site(key.0).value.links;
    var k :| 0 <= k < |links| && c.InScope(ScopeOf(c, site), links[k]) && c.Norm(links[k]) == to;
  }

  lemma LinkClaimed(c: Config, site: Site, run: seq<State>, from: Url, to: Url)
    requires Steady(c, site) && Drained(c, site, run) && !CutShort(c, site, Last(run)) && Distinct(c, site, c.maxDepth + 1)
    requires Claimed(Last(run), from) && Links(c, site, from, to)
    ensures Claimed(Last(run), to)
  {
    var s := Last(run);
    var d := ClaimedIsDone(c, site, run, from);
    BackedAlways(c, site, run);
    TrackedAlways(c, site, run);
    ReachNext(c, site, from, to, d);
    LinkPrinted(c, site, s, (from, d), to);
    PrintedIsClaimed(c, site, s, to, d + 1);
  }

  lemma LinkPrinted(c: Config, site: Site, s: State, key: (Url, nat), to: Url)
    requires Steady(c, site) && AllBorn(c, s) && DoneWell(c, site, s, key) && !CutShort(c, site, s)
    requires key.1 <= c.maxDepth && Links(c, site, key.0, to)
    ensures Printed(c, s, c.fp(to))
  {
    if key.1 < c.maxDepth { DoneLinks(c, site, s, key, to); } else { CutVisits(c, site, s, key, to); }
  }

  // Only the URL itself can have its fingerprint.
  lemma PrintedIsClaimed(c: Config, site: Site, s: State, url: Url, d: nat)
    requires BornReached(c, site, s) && Distinct(c, site, c.maxDepth + 1) && Printed(c, s, c.fp(url))
    requires Reach(c, site, url, d) && d <= c.maxDepth + 1
    ensures Claimed(s, url)
  {
    var b :| b in s.h.born && c.fp(b.0) == c.fp(url);
    SamePrint(c, site, b.0, b.1, url, d, c.maxDepth + 1);
    assert (url, b.1) in s.h.born;
  }

  lemma CutVisits(c: Config, site: Site, s: State, key: (Url, nat), to: Url)
    requires !CutShort(c, site, s) && DoneWell(c, site, s, key) && key.1 == c.maxDepth && Links(c, site, key.0, to)
    ensures c.fp(to) in s.f.visited
  {
    var a := (key, site(key.0));
    assert a in s.h.answers && a.1.Some? && a.0.1 == c.maxDepth && Links(c, site, a.0.0, to);
  }

  // With a scope that no restart changes, a crawl in any number of processes accepts every
  // reachable URL, wherever it was interrupted.
  lemma ResumeCovers(c: Config, site: Site, run: seq<State>)
    requires Steady(c, site)
    requires Drained(c, site, run) && !CutShort(c, site, Last(run)) && Distinct(c, site, c.maxDepth + 1)
    ensures Covers(c, site, Last(run))
  {
    var s := Last(run);
    RootVisited(c, run);
    TrackedAlways(c, site, run);
    BackedAlways(c, site, run);
    RootReached(c, site);
    PrintedIsClaimed(c, site, s, Root(c), 0);
    forall from, to | Claimed(s, from) && Links(c, site, from, to) ensures Claimed(s, to) {
      LinkClaimed(c, site, run, from, to);
    }
    forall url, d: nat | Reach(c, site, url, d) ensures Claimed(s, url) { ReachClaimed(c, site, s, url, d); }
  }
}
