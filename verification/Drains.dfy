// Drained runs exist: a crawl without limits can be run to its end on any site.
module Drains {
  import opened Prelude
  import opened Urls
  import opened Protocol
  import opened Census
  import opened Wakeups
  import opened Coverage
  import Accounting
  import Races
  import Termination
  import Scripts

  // No stop is on its way, and nobody is about to skip an item.
  predicate Calm(p: Phase) {
    !p.Halting? && !p.HaltNotifying?
    && (p.Busy? ==> !p.task.Skipping? && !p.task.Loading? && !p.task.Reserving? && !p.task.Rejecting? && !p.task.RejectNotifying?)
  }

  predicate Undisturbed(site: Site, s: State) {
    Honest(s, site) && !s.f.stopped && forall i :: 0 <= i < |s.ws| ==> Calm(s.ws[i])
  }

  // The environment at its best: verdicts let through, the site answers.
  function Kindly(site: Site, p: Phase, o: Oracle): Oracle {
    o.(flag := p.Busy? && (p.task.Vetting? || p.task.Robots?), answer := if p.Busy? then site(p.item.url) else None)
  }

  lemma KindEnabled(c: Config, site: Site, s: State, w: nat, o: Oracle)
    requires Enabled(c, s, w, o)
    ensures Enabled(c, s, w, Kindly(site, s.ws[w], o)) && Termination.Strong(s, w, Kindly(site, s.ws[w], o))
  {
  }

  lemma KindIsCalm(c: Config, site: Site, s: State, w: nat, o: Oracle)
    requires Enabled(c, s, w, o) && c.maxUrls.None? && Calm(s.ws[w]) && o == Kindly(site, s.ws[w], o)
    ensures Calm(Move(c, s, w, o).0)
  {
    if s.ws[w].Busy? { TaskIsCalm(c, site, s, s.ws[w].item, s.ws[w].task, o); }
  }

  lemma TaskIsCalm(c: Config, site: Site, s: State, item: Item, task: Task, o: Oracle)
    requires TaskEnabled(c, s, item, task, o) && c.maxUrls.None? && Calm(Busy(item, task))
    requires o == Kindly(site, Busy(item, task), o)
    ensures Calm(MoveTask(c, s, item, task, o).0)
  {
  }

  lemma KindIsHonest(c: Config, site: Site, s: State, p: Phase, o: Oracle)
    requires Calm(p) && o == Kindly(site, p, o)
    ensures var turn := TurnOf(c, s, p, o);
      !turn.Stops? && (turn.Asked? ==> turn.answer == site(turn.key.0))
  {
  }

  lemma KindKeeps(c: Config, site: Site, s: State, w: nat, o: Oracle)
    requires Enabled(c, s, w, o) && c.maxUrls.None? && Undisturbed(site, s) && o == Kindly(site, s.ws[w], o)
    ensures Undisturbed(site, Step(c, s, w, o))
  {
    MoveAfter(c, s, w, o);
    MoveDisturbs(c, s, w, o);
    KindIsCalm(c, site, s, w, o);
    KindIsHonest(c, site, s, s.ws[w], o);
    CalmAssembled(site, s, Move(c, s, w, o).1, w, o.pick, Move(c, s, w, o).0);
  }

  lemma CalmAssembled(site: Site, s: State, t: State, w: nat, pick: nat, p: Phase)
    requires Undisturbed(site, s) && Disturbed(s.ws, t.ws, w, pick) && Calm(p) && Honest(t, site) && !t.f.stopped
    ensures Undisturbed(site, t.(ws := t.ws[w := p]))
  {
  }

  lemma PagesStay(c: Config, s: State, w: nat, o: Oracle)
    requires Enabled(c, s, w, o)
    ensures |s.t.pages| <= |Step(c, s, w, o).t.pages|
  {
    MovePages(c, s, w, o);
  }

  // Any such session can be driven to a drained end.
  lemma {:induction false} DrainFrom(c: Config, site: Site, run: seq<State>, rank: Termination.Rank)
    returns (more: seq<State>)
    requires Session(c, run) && c.Valid() && c.maxUrls.None? && Undisturbed(site, Last(run))
    requires rank == Termination.RankOf(Last(run))
    ensures Scripts.Origin(c, more) == Some(run[0]) && Finished(Last(more)) && Undisturbed(site, Last(more))
    ensures |Last(run).t.pages| <= |Last(more).t.pages|
    decreases rank.unseen, rank.unfetched, rank.labour, rank.stale, rank.tokens, rank.patience
  {
    if Finished(Last(run)) {
      more := run;
    } else {
      more := KindStep(c, site, run);
      more := DrainFrom(c, site, more, Termination.RankOf(Last(more)));
    }
  }

  lemma KindStep(c: Config, site: Site, run: seq<State>) returns (more: seq<State>)
    requires Session(c, run) && c.Valid() && c.maxUrls.None? && Undisturbed(site, Last(run)) && !Finished(Last(run))
    ensures Scripts.Origin(c, more) == Some(run[0]) && Undisturbed(site, Last(more))
    ensures |Last(run).t.pages| <= |Last(more).t.pages|
    ensures Termination.Below(Termination.RankOf(Last(more)), Termination.RankOf(Last(run)))
    ensures Termination.RankOf(Last(run)).unseen >= 0
  {
    NoDeadlock(c, run);
    var s := Last(run);
    var w: nat, o :| Enabled(c, s, w, o) && !o.flag;
    var kind := Kindly(site, s.ws[w], o);
    KindEnabled(c, site, s, w, o);
    KindKeeps(c, site, s, w, kind);
    PagesStay(c, s, w, kind);
    Termination.StepBelow(c, s, w, kind);
    more := Scripts.Go(c, run, w, kind);
  }

  // For every configuration without a budget, every site and every number of workers.
  lemma DrainedRunExists(c: Config, site: Site, n: nat) returns (run: seq<State>)
    requires c.Valid() && c.maxUrls.None? && n >= 1
    ensures DrainedRun(c, site, run) && run[0] == Fresh(c, n)
  {
    SpawnShape(n);
    run := [Fresh(c, n)];
    assert run[0] == Start(c, n, Tables({}, map[]), 0, History(0, {}, {}, {}, {}, {}, 0));
    run := DrainFrom(c, site, run, Termination.RankOf(Last(run)));
  }

  // Everything `DrainedCoverage` speaks of happens: a site, for any number of workers, on
  // which a drained crawl covers all that links reach.
  lemma CoverageHappens(n: nat) returns (run: seq<State>)
    requires n >= 1
    ensures DrainedRun(Races.TriangleCrawl(), Races.Triangle(), run) && run[0] == Fresh(Races.TriangleCrawl(), n)
    ensures Distinct(Races.TriangleCrawl(), Races.Triangle(), Races.TriangleCrawl().maxDepth + 1)
    ensures !CutShort(Races.TriangleCrawl(), Races.Triangle(), Last(run))
    ensures Covers(Races.TriangleCrawl(), Races.Triangle(), Last(run))
  {
    var c, site := Races.TriangleCrawl(), Races.Triangle();
    run := DrainedRunExists(c, site, n);
    Races.TriangleDistinct(6);
    Races.TriangleShallow(6);
    DrainedCoverage(c, site, run);
  }

  // ----- where the final report is off -----

  function Lone(): Site { (url: Url) => if url == Races.Page("s") then Some(Response("s", [])) else None }

  // The lone page is recorded.
  lemma LonePage() returns (run: seq<State>)
    ensures Scripts.Origin(Races.TriangleCrawl(), run) == Some(Fresh(Races.TriangleCrawl(), 1))
    ensures Undisturbed(Lone(), Last(run)) && |Last(run).t.pages| > 0
  {
    var c := Races.TriangleCrawl();
    var seed, e;
    Races.HostsDiffer();
    run, seed := Races.SeedTaken(c, 1);
    run, e := Scripts.OpenPage(c, run, 1, seed, Response("s", []));
    run := Scripts.LinksDone(c, run, 1, seed, e);
    run := Scripts.RecordPage(c, run, 1, seed, e.links);
  }

  // Without a limit a finished crawl has pages and reports 0 fetched.
  lemma PagesUncounted() returns (run: seq<State>)
    ensures Accounting.Counted(Races.TriangleCrawl(), run) && Races.TriangleCrawl().maxUrls.None? && Finished(Last(run))
    ensures |Last(run).t.pages| > 0 && Last(run).t.fetched == 0
  {
    var c := Races.TriangleCrawl();
    run := LonePage();
    run := DrainFrom(c, Lone(), run, Termination.RankOf(Last(run)));
    Accounting.BooksAlways(c, run);
  }

  // On the store that `SeedLost` leaves, the next crawl starts from nothing and reports one
  // URL too many.
  lemma NothingCountedAsOne(c: Config) returns (run: seq<State>)
    requires c.Valid() && c.maxUrls.None?
    ensures Accounting.Counted(c, run) && Finished(Last(run))
    ensures var s := Last(run);
      Accounting.UrlsDiscovered(s) == |s.t.pages| + s.t.errors + s.t.skipped + s.h.dropped + |s.f.queue| + 1
  {
    var site: Site := (url: Url) => None;
    var before, start := Races.SeedLost(c);
    SpawnShape(1);
    run := DrainFrom(c, site, [start], Termination.RankOf(start));
    Accounting.Conservation(c, run);
    Accounting.FetchedReport(c, run);
  }
}
