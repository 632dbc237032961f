/** When sections are rebuilt, and why rebuilding stops when the data does. */
module CompanyPageSchedule {
  import opened Common
  import opened CompanyPages
  import R = CompanyPageRuns

  /** A unit with every structural section that is not fresh. */
  ghost predicate WholeStructure(cfg: Config, code: Code, pid: nat, page: Page, d: Data, now: real, u: seq<Section>) {
    forall s | s != Summary && !Fresh(cfg, code, pid, s, page, d, now) :: s in u
  }

  /** Structural sections are rebuilt together: one due means all that are not fresh. The summary goes alone. */
  lemma StructureIsRebuiltWhole(cfg: Config, code: Code, pid: nat, page: Page, d: Data, now: real)
    ensures
      var units := Units(cfg, code, pid, page, d, now);
      && (forall u | u in units && Summary in u :: u == [Summary] && Due(cfg, code, pid, Summary, page, d, now))
      && (forall u | u in units && Summary !in u ::
            && WholeStructure(cfg, code, pid, page, d, now, u)
            && (Due(cfg, code, pid, Overview, page, d, now) || Due(cfg, code, pid, Functions, page, d, now)))
  {
    var units := Units(cfg, code, pid, page, d, now);
    forall u | u in units && Summary !in u ensures WholeStructure(cfg, code, pid, page, d, now, u) {
      assert u == units[|units| - 1];
    }
  }

  /**
   A scheduled section is never fresh, and every scheduled unit is non-empty, stale throughout and covers what is
   due.
   */
  lemma UnitsAreWork(cfg: Config, code: Code, pid: nat, page: Page, d: Data, now: real)
    ensures
      var units := Units(cfg, code, pid, page, d, now);
      && (forall s :: Due(cfg, code, pid, s, page, d, now) ==>
          !Fresh(cfg, code, pid, s, page, d, now) && exists u :: u in units && s in u)
      && (forall u | u in units :: u != [] && forall s | s in u :: !Fresh(cfg, code, pid, s, page, d, now))
  {
    var units := Units(cfg, code, pid, page, d, now);
    forall s | Due(cfg, code, pid, s, page, d, now)
      ensures !Fresh(cfg, code, pid, s, page, d, now) && exists u :: u in units && s in u
    {
      assert units[if s == Summary then 0 else |units| - 1] in units;
    }
  }

  /**
   Readers and the scheduler agree: a response exists unless the section is missing, and is labelled prepared exactly
   if it is fresh.
   */
  lemma ReadersSeeWhatIsScheduled(cfg: Config, code: Code, s: Section, name: string, pages: map<nat, Page>, d: Data,
      now: real, pid: nat)
    requires R.UniqueNames(d) && pid in pages && pid in d.names && d.names[pid] == name
    ensures
      var r := ReadResponse(cfg, code, s, name, pages, d, now);
      && (r.Some? <==> !Missing(cfg, code, pid, s, pages[pid], d, now))
      && (r.Some? && r.value.source == Prepared <==> Fresh(cfg, code, pid, s, pages[pid], d, now))
      && (r.Some? ==> r.value.body == pages[pid].sections[s].body && r.value.started == pages[pid].sections[s].started)
  {
    R.NamedIs(d, pid);
  }

  /**
   Under endless writes, a dirty section is due once its build is as old as both the interval and the maximum wait.
   */
  lemma DirtySectionBecomesDue(cfg: Config, code: Code, pid: nat, s: Section, page: Page, d: Data, now: real)
    requires s in page.sections && !RevisionsCurrent(page.sections[s], pid, s, d)
    requires
      var pace := TimingOf(cfg, s);
      page.sections[s].started <= now - (if pace.interval >= pace.wait then pace.interval else pace.wait)
    ensures Due(cfg, code, pid, s, page, d, now)
  {}

  /** A whole pass over one page with nothing else running: every unit builds, or the pass has no result. */
  ghost function PassResult(prog: Program, code: Code, pid: nat, name: string, units: seq<seq<Section>>, page: Page,
      d: Data, now: real): Option<Page>
  {
    if units == [] then Some(page) else
    match BuildUnit(prog, code, pid, name, units[0], d, now)
    case None => None
    case Some(values) => PassResult(prog, code, pid, name, units[1..], PublishUnit(page, name, units[0], values, now),
        d, now)
  }

  /** A section just built in this snapshot, under the name the row carries. */
  ghost predicate JustBuilt(code: Code, pid: nat, s: Section, page: Page, d: Data, now: real) {
    && s in page.sections
    && MarkersCurrent(code, s, page.sections[s], now) && SameCodeAndData(code, pid, s, page.sections[s], d)
  }

  lemma {:induction false} UnitBuilds(prog: Program, code: Code, pid: nat, name: string, unit: seq<Section>, page: Page,
      d: Data, now: real)
    requires BuildUnit(prog, code, pid, name, unit, d, now).Some?
    ensures
      var values := BuildUnit(prog, code, pid, name, unit, d, now).value;
      var after := PublishUnit(page, name, unit, values, now);
      && (forall s | s in unit :: JustBuilt(code, pid, s, after, d, now))
      && (forall s | JustBuilt(code, pid, s, page, d, now) :: JustBuilt(code, pid, s, after, d, now))
  {
    R.UnitFromBuild(prog, code, pid, name, unit, d, now);
  }

  lemma {:induction false} PassBuilds(prog: Program, code: Code, pid: nat, name: string, units: seq<seq<Section>>,
      page: Page, d: Data, now: real)
    requires PassResult(prog, code, pid, name, units, page, d, now).Some?
    ensures
      var after := PassResult(prog, code, pid, name, units, page, d, now).value;
      && (forall u, s | u in units && s in u :: JustBuilt(code, pid, s, after, d, now))
      && (forall s | JustBuilt(code, pid, s, page, d, now) :: JustBuilt(code, pid, s, after, d, now))
      && (after.companyName == if exists u :: u in units && Structural(u) then name else page.companyName)
    decreases |units|
  {
    if units != [] {
      UnitBuilds(prog, code, pid, name, units[0], page, d, now);
      var values := BuildUnit(prog, code, pid, name, units[0], d, now).value;
      PassBuilds(prog, code, pid, name, units[1..], PublishUnit(page, name, units[0], values, now), d, now);
      assert forall u :: u in units <==> u == units[0] || u in units[1..];
    }
  }

  /** The sections of a table of pages that are not fresh. */
  ghost function NotFresh(cfg: Config, code: Code, pages: map<nat, Page>, d: Data, now: real): set<(nat, Section)> {
    set pid, s | pid in pages && s in SECTIONS && !Fresh(cfg, code, pid, s, pages[pid], d, now) :: (pid, s)
  }

  lemma JustBuiltIsFresh(cfg: Config, code: Code, pid: nat, s: Section, page: Page, d: Data, now: real)
    ensures Fresh(cfg, code, pid, s, page, d, now) <==> JustBuilt(code, pid, s, page, d, now) && !Renamed(pid, page, d)
  {}

  lemma RenamedPageRebuildsStructure(cfg: Config, code: Code, pid: nat, page: Page, d: Data, now: real)
    requires Renamed(pid, page, d)
    ensures exists u :: u in Units(cfg, code, pid, page, d, now) && Structural(u)
  {
    var units := Units(cfg, code, pid, page, d, now);
    assert Due(cfg, code, pid, Overview, page, d, now);
    assert Structural(units[|units| - 1]) && units[|units| - 1] in units;
  }

  /** A pass picked at one time and built later makes every section it scheduled fresh and spoils none. */
  lemma PassFreshens(cfg: Config, prog: Program, code: Code, pid: nat, page: Page, d: Data, picked: real, built: real,
      s: Section)
    requires pid in d.names && picked <= built
    requires PassResult(prog, code, pid, d.names[pid], Units(cfg, code, pid, page, d, picked), page, d, built).Some?
    requires
      || Fresh(cfg, code, pid, s, page, d, picked)
      || exists u :: u in Units(cfg, code, pid, page, d, picked) && s in u
    ensures Fresh(cfg, code, pid, s,
        PassResult(prog, code, pid, d.names[pid], Units(cfg, code, pid, page, d, picked), page, d, built).value, d,
        built)
  {
    var units := Units(cfg, code, pid, page, d, picked);
    var after := PassResult(prog, code, pid, d.names[pid], units, page, d, built).value;
    PassBuilds(prog, code, pid, d.names[pid], units, page, d, built);
    if Renamed(pid, page, d) {
      RenamedPageRebuildsStructure(cfg, code, pid, page, d, picked);
    }
    if Fresh(cfg, code, pid, s, page, d, picked) {
      FreshStaysFresh(cfg, code, pid, s, page, d, picked, built);
      JustBuiltIsFresh(cfg, code, pid, s, page, d, built);
    }
    JustBuiltIsFresh(cfg, code, pid, s, after, d, built);
  }

  lemma FreshStaysFresh(cfg: Config, code: Code, pid: nat, s: Section, page: Page, d: Data, now: real, later: real)
    requires Fresh(cfg, code, pid, s, page, d, now) && now <= later
    ensures Fresh(cfg, code, pid, s, page, d, later)
  {}

  /** One whole pass over a page that has something scheduled. */
  ghost function OnePass(cfg: Config, prog: Program, code: Code, pages: map<nat, Page>, d: Data, picked: real,
      built: real, pid: nat): Option<map<nat, Page>>
  {
    if pid !in pages || pid !in d.names || Units(cfg, code, pid, pages[pid], d, picked) == [] then None else
    match PassResult(prog, code, pid, d.names[pid], Units(cfg, code, pid, pages[pid], d, picked), pages[pid], d, built)
    case None => None
    case Some(page) => Some(pages[pid := page])
  }

  /** A pass to run: which page, how long after the previous pass it is picked and how long it takes to build. */
  datatype Todo = Todo(pid: nat, delay: real, work: real)

  /** One pass: the page tables before and after it, and the times. */
  ghost predicate IsPass(cfg: Config, prog: Program, code: Code, d: Data, todo: Todo, before: map<nat, Page>, now: real,
      after: map<nat, Page>, later: real)
  {
    && 0.0 <= todo.delay && 0.0 <= todo.work && later == now + todo.delay + todo.work
    && OnePass(cfg, prog, code, before, d, now + todo.delay, later, todo.pid) == Some(after)
  }

  /** The successive page tables and times of a run of passes. */
  ghost predicate ArePasses(cfg: Config, prog: Program, code: Code, d: Data, todo: seq<Todo>,
      tables: seq<map<nat, Page>>, times: seq<real>)
  {
    && |tables| == |times| == |todo| + 1
    && forall i | 0 <= i < |todo| ::
         IsPass(cfg, prog, code, d, todo[i], tables[i], times[i], tables[i + 1], times[i + 1])
  }

  lemma PassKeepsFresh(cfg: Config, prog: Program, code: Code, pages: map<nat, Page>, d: Data, before: real,
      picked: real, built: real, pid: nat, x: (nat, Section))
    requires before <= picked <= built && OnePass(cfg, prog, code, pages, d, picked, built, pid).Some?
    requires x in NotFresh(cfg, code, OnePass(cfg, prog, code, pages, d, picked, built, pid).value, d, built)
    ensures x in NotFresh(cfg, code, pages, d, before)
  {
    if Fresh(cfg, code, x.0, x.1, pages[x.0], d, before) {
      FreshStaysFresh(cfg, code, x.0, x.1, pages[x.0], d, before, picked);
      FreshStaysFresh(cfg, code, x.0, x.1, pages[x.0], d, picked, built);
      if x.0 == pid {
        PassFreshens(cfg, prog, code, pid, pages[pid], d, picked, built, x.1);
      }
    }
  }

  lemma PassShrinksWork(cfg: Config, prog: Program, code: Code, pages: map<nat, Page>, d: Data, before: real,
      picked: real, built: real, pid: nat)
    requires before <= picked <= built && OnePass(cfg, prog, code, pages, d, picked, built, pid).Some?
    ensures |NotFresh(cfg, code, OnePass(cfg, prog, code, pages, d, picked, built, pid).value, d,
        built)| < |NotFresh(cfg, code, pages, d, before)|
  {
    var less := NotFresh(cfg, code, OnePass(cfg, prog, code, pages, d, picked, built, pid).value, d, built);
    var more := NotFresh(cfg, code, pages, d, before);
    forall x | x in less ensures x in more {
      PassKeepsFresh(cfg, prog, code, pages, d, before, picked, built, pid, x);
    }
    UnitsAreWork(cfg, code, pid, pages[pid], d, picked);
    var u := Units(cfg, code, pid, pages[pid], d, picked)[0];
    var s := u[0];
    PassFreshens(cfg, prog, code, pid, pages[pid], d, picked, built, s);
    AllSections(s);
    if Fresh(cfg, code, pid, s, pages[pid], d, before) {
      FreshStaysFresh(cfg, code, pid, s, pages[pid], d, before, picked);
    }
    ProperSubsetIsSmaller(less, more, (pid, s));
  }

  lemma AllSections(s: Section)
    ensures s in SECTIONS
  {
    assert s == SECTIONS[if s == Overview then 0 else if s == Functions then 1 else 2];
  }

  lemma ProperSubsetIsSmaller<T>(less: set<T>, more: set<T>, extra: T)
    requires less <= more && extra in more && extra !in less
    ensures |less| < |more|
  {
    SubsetIsNoLarger(less, more - {extra});
  }

  lemma IsPassShrinksWork(cfg: Config, prog: Program, code: Code, d: Data, todo: Todo, before: map<nat, Page>,
      now: real, after: map<nat, Page>, later: real)
    requires IsPass(cfg, prog, code, d, todo, before, now, after, later)
    ensures |NotFresh(cfg, code, after, d, later)| < |NotFresh(cfg, code, before, d, now)|
  {
    PassShrinksWork(cfg, prog, code, before, d, now, now + todo.delay, later, todo.pid);
  }

  lemma {:induction false} WorkShrinks(cfg: Config, prog: Program, code: Code, d: Data, todo: seq<Todo>,
      tables: seq<map<nat, Page>>, times: seq<real>, k: nat)
    requires ArePasses(cfg, prog, code, d, todo, tables, times) && k <= |todo|
    ensures k + |NotFresh(cfg, code, tables[k], d, times[k])| <= |NotFresh(cfg, code, tables[0], d, times[0])|
  {
    if k > 0 {
      WorkShrinks(cfg, prog, code, d, todo, tables, times, k - 1);
      IsPassShrinksWork(cfg, prog, code, d, todo[k - 1], tables[k - 1], times[k - 1], tables[k], times[k]);
    }
  }

  /**
   With no further writes, every successful pass strictly shrinks the set of sections that are not fresh, so a
   run of passes is never longer than that set; once it is empty nothing is scheduled.
   */
  lemma PassesEnd(cfg: Config, prog: Program, code: Code, d: Data, todo: seq<Todo>, tables: seq<map<nat, Page>>,
      times: seq<real>)
    requires ArePasses(cfg, prog, code, d, todo, tables, times)
    ensures |todo| <= |NotFresh(cfg, code, tables[0], d, times[0])|
  {
    WorkShrinks(cfg, prog, code, d, todo, tables, times, |todo|);
  }

  lemma AllFreshIsIdle(cfg: Config, code: Code, pages: map<nat, Page>, d: Data, now: real, pid: nat)
    requires NotFresh(cfg, code, pages, d, now) == {} && pid in pages
    ensures Units(cfg, code, pid, pages[pid], d, now) == []
  {
    UnitsAreWork(cfg, code, pid, pages[pid], d, now);
    forall s ensures Fresh(cfg, code, pid, s, pages[pid], d, now) {
      AllSections(s);
      assert (pid, s) !in NotFresh(cfg, code, pages, d, now);
    }
  }

  /** Retry delays double from five seconds and stay at five minutes from the sixth retry on. */
  lemma {:induction false} BackoffIsBounded(attempts: nat)
    ensures 5 == Backoff(0) <= Backoff(attempts) <= 300 && Backoff(attempts) == Min(300, 5 * Pow2(attempts))
    ensures Backoff(attempts + 1) == Min(300, 2 * Backoff(attempts))
  {
    Pow2Grows(0, Min(attempts, 6));
    assert Pow2(6) == 2 * Pow2(5) && Pow2(5) == 2 * Pow2(4) && Pow2(4) == 2 * Pow2(3);
    assert Pow2(3) == 2 * Pow2(2) && Pow2(2) == 2 * Pow2(1) && Pow2(1) == 2;
    if attempts >= 6 {
      Pow2Grows(6, attempts);
    }
  }

  /**
   When a readable section is rebuilt: never before its interval is over, then at once for other code, and for
   changed data once no recorded scope has changed lately or the build is as old as the maximum wait.
   */
  lemma RebuildPacing(cfg: Config, code: Code, pid: nat, s: Section, page: Page, d: Data, now: real)
    requires !Missing(cfg, code, pid, s, page, d, now)
    ensures
      var st := page.sections[s];
      var pace := if s == Summary then cfg.summary else cfg.structural;
      var moved := set x | x in st.revisions && st.revisions[x] != Lookup(d.tokens, x);
      var dirty := moved != {} || !(DependenciesFor(pid, s) <= st.revisions.Keys);
      var noisy := exists x | x in moved :: x in d.changed && d.changed[x] > now - pace.quiet;
      Due(cfg, code, pid, s, page, d, now) <==>
        && now >= st.started + pace.interval
        && (st.digest != code.digest || (dirty && (!noisy || now >= st.started + pace.wait)))
  {
    var st := page.sections[s];
    var moved := set x | x in st.revisions && st.revisions[x] != Lookup(d.tokens, x);
    assert moved != {} <==> exists x | x in st.revisions :: st.revisions[x] != Lookup(d.tokens, x) by {
      if x :| x in st.revisions && st.revisions[x] != Lookup(d.tokens, x) {
        assert x in moved;
      }
    }
  }

  /** The scopes a producer touches to have a section of a protocol rebuilt. */
  predicate Feeds(scope: Scope, pid: nat, s: Section) {
    match s
    case Summary => scope == SummaryAll || scope == SummaryProtocol(pid)
    case Functions => scope == All || scope == Protocol(pid)
    case Overview => scope == All || scope == Protocol(pid) || scope == OverviewAll || scope == OverviewProtocol(pid)
  }

  /** A write to any scope that feeds a section, or that its build tracked, leaves it not fresh. */
  lemma WritesSpoilSections(w: R.World, changes: map<Scope, Value>, code: Code, pid: nat, s: Section, scope: Scope)
    requires R.TokensIssued(w.data) && scope in changes && pid in w.pages
    requires Fresh(w.cfg, code, pid, s, w.pages[pid], w.data, w.now)
    requires Feeds(scope, pid, s) || scope in w.pages[pid].sections[s].revisions
    ensures
      var t := R.Step(w, R.Write(changes));
      !Fresh(t.cfg, code, pid, s, t.pages[pid], t.data, t.now)
  {
    var t := R.Step(w, R.Write(changes));
    assert scope in w.pages[pid].sections[s].revisions;
    assert Lookup(t.data.tokens, scope) == Some(w.data.next) != Lookup(w.data.tokens, scope);
  }

  /** A page whose pass failed is picked by no worker until its delay is over. */
  lemma FailedPageWaits(w: R.World, worker: nat, other: nat, code: Code, seconds: real)
    requires worker in w.passes && w.passes[worker].units == [] && w.passes[worker].failed
    requires w.passes[worker].pid in w.pages
    requires 0.0 <= seconds < Backoff(w.pages[w.passes[worker].pid].attempts) as real
    ensures
      var pid := w.passes[worker].pid;
      var t := R.Step(R.Step(w, R.Commit(worker)), R.Tick(seconds));
      t.pages[pid].attempts == w.pages[pid].attempts + 1 && R.Step(t, R.Pick(other, code, pid)) == t
  {}

  /** A stored section under the reader's markers is served for as long as the stale limit allows, whatever changed. */
  lemma StaleSectionsAreServed(cfg: Config, code: Code, s: Section, pid: nat, pages: map<nat, Page>, d: Data, now: real)
    requires R.UniqueNames(d) && pid in pages && pid in d.names && d.names[pid] == pages[pid].companyName
    requires
      && s in pages[pid].sections
      && var st := pages[pid].sections[s];
         && st.schema == SchemaOf(code, s) && st.epoch == code.epoch && st.chains == code.chains
         && st.started <= now <= st.started + cfg.staleMax
    ensures
      var r := ReadResponse(cfg, code, s, pages[pid].companyName, pages, d, now);
      && r.Some? && r.value.body == pages[pid].sections[s].body && r.value.started == pages[pid].sections[s].started
      && (r.value.source == Prepared <==>
            pages[pid].sections[s].digest == code.digest && RevisionsCurrent(pages[pid].sections[s], pid, s, d))
  {
    R.NamedIs(d, pid);
  }

  /** Build after build of one worker. */
  function Builds(worker: nat, n: nat): seq<R.Event> {
    if n == 0 then [] else [R.Build(worker, true)] + Builds(worker, n - 1)
  }

  /** What an undisturbed pass makes of its page. */
  ghost function Undisturbed(w: R.World, p: R.Pass): Option<Page> {
    PassResult(w.prog, p.code, p.pid, p.name, p.units, p.draft, w.data, w.now)
  }

  lemma OneBuild(w: R.World, worker: nat)
    requires worker in w.passes && w.passes[worker].units != [] && Undisturbed(w, w.passes[worker]).Some?
    ensures
      var p, t := w.passes[worker], R.Step(w, R.Build(worker, true));
      && t.pages == w.pages && t.now == w.now && worker in t.passes
      && t.passes[worker] == p.(units := p.units[1..], draft := t.passes[worker].draft)
      && Undisturbed(t, t.passes[worker]) == Undisturbed(w, p)
  {}

  lemma {:induction false} BuildsAreAPass(w: R.World, worker: nat)
    requires worker in w.passes && Undisturbed(w, w.passes[worker]).Some?
    ensures
      var p := w.passes[worker];
      var t := R.Exec(w, Builds(worker, |p.units|));
      && t.pages == w.pages && t.now == w.now && worker in t.passes
      && t.passes[worker] == p.(units := [], draft := Undisturbed(w, p).value)
    decreases |w.passes[worker].units|
  {
    var p := w.passes[worker];
    if p.units != [] {
      OneBuild(w, worker);
      BuildsAreAPass(R.Step(w, R.Build(worker, true)), worker);
      assert Builds(worker, |p.units|)[1..] == Builds(worker, |p.units| - 1);
    }
  }

  /** The page has work that a worker may pick. */
  predicate Pickable(w: R.World, worker: nat, code: Code, pid: nat) {
    && worker !in w.passes && !R.Locked(w, pid) && pid in w.pages && pid in w.data.names
    && w.pages[pid].nextAttempt <= w.now && Units(w.cfg, code, pid, w.pages[pid], w.data, w.now) != []
  }

  lemma PickStarts(w: R.World, worker: nat, code: Code, pid: nat)
    requires Pickable(w, worker, code, pid)
    ensures
      var page, t := w.pages[pid], R.Step(w, R.Pick(worker, code, pid));
      var units := Units(w.cfg, code, pid, page, w.data, w.now);
      && t == w.(passes := t.passes) && worker in t.passes
      && t.passes[worker] == R.Pass(code, pid, w.data.names[pid], units, page, false)
  {}

  lemma CommitEnds(w: R.World, worker: nat)
    requires worker in w.passes && w.passes[worker].units == [] && !w.passes[worker].failed
    ensures R.Step(w, R.Commit(worker)).pages == w.pages[w.passes[worker].pid := w.passes[worker].draft]
  {}

  /** A pass that nothing disturbs commits every unit it scheduled. */
  lemma UndisturbedPassCommits(w: R.World, worker: nat, code: Code, pid: nat)
    requires Pickable(w, worker, code, pid)
    requires
      var units := Units(w.cfg, code, pid, w.pages[pid], w.data, w.now);
      PassResult(w.prog, code, pid, w.data.names[pid], units, w.pages[pid], w.data, w.now).Some?
    ensures
      var units := Units(w.cfg, code, pid, w.pages[pid], w.data, w.now);
      var page := PassResult(w.prog, code, pid, w.data.names[pid], units, w.pages[pid], w.data, w.now).value;
      R.Step(R.Exec(R.Step(w, R.Pick(worker, code, pid)), Builds(worker, |units|)), R.Commit(worker)).pages
      == w.pages[pid := page]
  {
    var picked := R.Step(w, R.Pick(worker, code, pid));
    PickStarts(w, worker, code, pid);
    BuildsAreAPass(picked, worker);
    CommitEnds(R.Exec(picked, Builds(worker, |picked.passes[worker].units|)), worker);
  }
}
