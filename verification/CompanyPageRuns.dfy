/**
 Every interleaving of producer writes, renames, snapshot builds, publications and code deploys: what a served
 response says about the data it was built from.
 */
module CompanyPageRuns {
  import opened Common
  import opened CompanyPages

  /** A pass of one worker over one locked page row; `draft` is the row its transaction will commit. */
  datatype Pass = Pass(code: Code, pid: nat, name: string, units: seq<seq<Section>>, draft: Page, failed: bool)

  /** A build that ran: its code, what it built for which page, the name it used and its snapshot. */
  datatype Built = Built(code: Code, section: Section, page: nat, name: string, snapshot: Data, at: real)

  datatype World = World(
    cfg: Config, prog: Program, now: real, data: Data, pages: map<nat, Page>, passes: map<nat, Pass>,
        history: set<Built>)

  datatype Event =
    | Write(changes: map<Scope, Value>)
    | Rename(pid: nat, name: string)
    | Seed(pid: nat)
    | Pick(worker: nat, code: Code, pid: nat)
    | Build(worker: nat, survives: bool)
    | Commit(worker: nat)
    | Crash(worker: nat)
    | Tick(seconds: real)

  /** A write gives every scope it touches one token no snapshot has seen. */
  function Touch(d: Data, scopes: set<Scope>, now: real): Data {
    d.(tokens := d.tokens + map s | s in scopes :: d.next,
       changed := d.changed + map s | s in scopes :: now,
       next := d.next + 1)
  }

  predicate Locked(w: World, pid: nat) {
    exists x | x in w.passes :: w.passes[x].pid == pid
  }

  /** Build the next unit of a pass over a snapshot; a failed unit rolls back to its savepoint. */
  ghost function BuildPass(prog: Program, p: Pass, d: Data, now: real, survives: bool): Pass
    requires p.units != []
  {
    var unit, rest := p.units[0], p.units[1..];
    var values := BuildUnit(prog, p.code, p.pid, p.name, unit, d, now);
    if survives && values.Some? then p.(units := rest, draft := PublishUnit(p.draft, p.name, unit, values.value, now))
    else p.(units := rest, failed := true)
  }

  ghost function BuildStep(w: World, worker: nat, survives: bool): World {
    if worker !in w.passes || w.passes[worker].units == [] then w else
    var p := w.passes[worker];
    var built := survives && BuildUnit(w.prog, p.code, p.pid, p.name, p.units[0], w.data, w.now).Some?;
    w.(passes := w.passes[worker := BuildPass(w.prog, p, w.data, w.now, survives)],
       history := w.history + if built then set s | s in p.units[0] :: Built(p.code, s, p.pid, p.name, w.data, w.now)
           else {})
  }

  /** The row a finished pass commits; a pass with a failed unit also backs its page off. */
  function Committed(p: Pass, attempts: nat, now: real): Page {
    if p.failed then p.draft.(attempts := attempts + 1, nextAttempt := now + Backoff(attempts) as real) else p.draft
  }

  function CommitStep(w: World, worker: nat): World {
    if worker !in w.passes || w.passes[worker].units != [] then w else
    var p := w.passes[worker];
    var attempts := if p.pid in w.pages then w.pages[p.pid].attempts else 0;
    w.(pages := w.pages[p.pid := Committed(p, attempts, w.now)], passes := w.passes - {worker})
  }

  ghost function Step(w: World, e: Event): World {
    match e
    case Write(changes) => w.(data := Touch(w.data, changes.Keys, w.now).(values := w.data.values + changes))
    case Rename(pid, name) =>
      if Named(w.data, name).Some? then w
      else w.(data := Touch(w.data, {Protocol(pid)}, w.now).(names := w.data.names[pid := name]))
    case Seed(pid) =>
      if pid in w.pages || pid !in w.data.names then w
      else w.(pages := w.pages[pid := Page(map[], w.data.names[pid], 0, w.now)])
    case Pick(worker, code, pid) =>
      if worker in w.passes || Locked(w, pid) || pid !in w.pages || pid !in w.data.names
          || w.pages[pid].nextAttempt > w.now then w else
      var units := Units(w.cfg, code, pid, w.pages[pid], w.data, w.now);
      if units == [] then w
      else w.(passes := w.passes[worker := Pass(code, pid, w.data.names[pid], units, w.pages[pid], false)])
    case Build(worker, survives) => BuildStep(w, worker, survives)
    case Commit(worker) => CommitStep(w, worker)
    case Crash(worker) => w.(passes := w.passes - {worker})
    case Tick(seconds) => if seconds >= 0.0 then w.(now := w.now + seconds) else w
  }

  ghost function Exec(w: World, run: seq<Event>): World
    decreases |run|
  {
    if run == [] then w else Exec(Step(w, run[0]), run[1..])
  }

  lemma {:induction false} ExecAppend(w: World, first: seq<Event>, rest: seq<Event>)
    ensures Exec(w, first + rest) == Exec(Exec(w, first), rest)
    decreases |first|
  {
    if first == [] {
      assert first + rest == rest;
    } else {
      assert (first + rest)[1..] == first[1..] + rest;
      ExecAppend(Step(w, first[0]), first[1..], rest);
    }
  }

  /** The stored columns are exactly what one recorded build produced. */
  ghost predicate FromBuild(prog: Program, st: Stored, b: Built) {
    && BuildSection(prog, b.code.digest, b.section, b.name, b.snapshot).Some?
    && st == StoredOf(b.code, b.page, b.section, BuildSection(prog, b.code.digest, b.section, b.name, b.snapshot).value,
        b.snapshot, b.at)
  }

  /** One recorded build for this page produced this section; a structural one used the row's name. */
  ghost predicate SectionExplained(w: World, pid: nat, s: Section, st: Stored, companyName: string) {
    exists b | b in w.history ::
      b.section == s && b.page == pid && FromBuild(w.prog, st, b) && (s != Summary ==> b.name == companyName)
  }

  ghost predicate PageExplained(w: World, pid: nat, page: Page) {
    forall s | s in page.sections :: SectionExplained(w, pid, s, page.sections[s], page.companyName)
  }

  predicate UniqueNames(d: Data) {
    forall p, q | p in d.names && q in d.names && d.names[p] == d.names[q] :: p == q
  }

  predicate TokensIssued(d: Data) {
    forall s | s in d.tokens :: d.tokens[s] < d.next
  }

  /** Between a snapshot and the current data, an unchanged token means an unchanged value (and name). */
  ghost predicate TokensTell(before: Data, after: Data) {
    && (forall s :: Lookup(before.tokens, s) == Lookup(after.tokens, s) ==>
        Lookup(before.values, s) == Lookup(after.values, s))
    && (forall p :: Lookup(before.tokens, Protocol(p)) == Lookup(after.tokens, Protocol(p)) ==>
        Lookup(before.names, p) == Lookup(after.names, p))
  }

  ghost predicate SnapshotOk(d: Data, snapshot: Data) {
    UniqueNames(snapshot) && TokensIssued(snapshot) && snapshot.next <= d.next && TokensTell(snapshot, d)
  }

  /** A structural unit either runs under the row's own name or rebuilds every structural section the row has. */
  ghost predicate PassExplained(w: World, p: Pass) {
    && PageExplained(w, p.pid, p.draft)
    && (forall u | u in p.units :: u == [Summary] || Covers(u, p.name, p.draft))
  }

  predicate Covers(unit: seq<Section>, name: string, page: Page) {
    && Structural(unit)
    && (name == page.companyName || forall s | s in page.sections && s != Summary :: s in unit)
  }

  ghost predicate Inv(w: World) {
    && UniqueNames(w.data) && TokensIssued(w.data)
    && (forall b | b in w.history :: b.at <= w.now && SnapshotOk(w.data, b.snapshot))
    && (forall pid | pid in w.pages :: PageExplained(w, pid, w.pages[pid]))
    && (forall x | x in w.passes :: PassExplained(w, w.passes[x]))
  }

  /** A build reads only what it asks for, so equal answers give an equal build. */
  lemma {:induction false} SameReadsSameBuild(s: Strategy, a: Data, b: Data, seen: seq<Option<Value>>, budget: nat)
    requires RunStrategy(s, a, seen, budget).Some?
    requires forall k | k in RunStrategy(s, a, seen, budget).value.1 :: Lookup(a.values, k) == Lookup(b.values, k)
    ensures RunStrategy(s, b, seen, budget) == RunStrategy(s, a, seen, budget)
    decreases budget
  {
    match s(seen) {
      case Ask(scope) =>
        assert scope in RunStrategy(s, a, seen, budget).value.1;
        SameReadsSameBuild(s, a, b, seen + [Lookup(a.values, scope)], budget - 1);
      case _ =>
    }
  }

  /** The section of protocol `pid` from the data as it stands. */
  function CurrentSection(w: World, digest: string, section: Section, pid: nat, name: string): Option<Payload> {
    match RunStrategy(w.prog.recipe(digest, section, pid, NameArgument(section, name)), w.data, [], w.prog.budget)
    case None => None
    case Some(built) => Some(built.0)
  }

  /** The build found the protocol of the page it was for. */
  ghost predicate Own(b: Built) {
    Named(b.snapshot, b.name) == Some(b.page)
  }

  lemma {:induction false} SummaryReads(
    prog: Program, digest: string, pid: nat, d: Data, seen: seq<Option<Value>>, budget: nat)
    requires SummaryLocal(prog) && RunStrategy(prog.recipe(digest, Summary, pid, ""), d, seen, budget).Some?
    ensures forall k | k in RunStrategy(prog.recipe(digest, Summary, pid, ""), d, seen, budget).value.1 ::
      SummaryScope(k, pid)
    decreases budget
  {
    match prog.recipe(digest, Summary, pid, "")(seen) {
      case Ask(scope) => SummaryReads(prog, digest, pid, d, seen + [Lookup(d.values, scope)], budget - 1);
      case _ =>
    }
  }

  /**
   While its tokens are current, a recorded build is the current section of the protocol its name denoted. A
   summary records only its page's scopes, so it must have been its page's own.
   */
  lemma CurrentTokensCurrentSection(w: World, st: Stored, b: Built)
    requires SnapshotOk(w.data, b.snapshot) && FromBuild(w.prog, st, b)
        && RevisionsCurrent(st, b.page, b.section, w.data)
    requires b.section == Summary ==> SummaryLocal(w.prog) && Own(b)
    ensures CurrentSection(w, b.code.digest, b.section, Named(b.snapshot, b.name).value, b.name) == Some(st.body)
  {
    var pid := Named(b.snapshot, b.name).value;
    var strategy := w.prog.recipe(b.code.digest, b.section, pid, NameArgument(b.section, b.name));
    var built := RunStrategy(strategy, b.snapshot, [], w.prog.budget);
    assert built.Some? && built.value.0 == st.body;
    if b.section == Summary {
      SummaryReads(w.prog, b.code.digest, pid, b.snapshot, [], w.prog.budget);
    }
    forall k | k in built.value.1 ensures Lookup(b.snapshot.values, k) == Lookup(w.data.values, k) {
      assert k in st.revisions && st.revisions[k] == Lookup(b.snapshot.tokens, k);
    }
    SameReadsSameBuild(strategy, b.snapshot, w.data, [], w.prog.budget);
  }

  lemma NamedIs(d: Data, pid: nat)
    requires UniqueNames(d) && pid in d.names
    ensures Named(d, d.names[pid]) == Some(pid)
  {}

  lemma {:induction false} UnitFromBuild(prog: Program, code: Code, pid: nat, name: string, unit: seq<Section>, d: Data,
      now: real)
    requires BuildUnit(prog, code, pid, name, unit, d, now).Some?
    ensures
      var values := BuildUnit(prog, code, pid, name, unit, d, now).value;
      && (forall s | s in unit :: s in values)
      && (forall s | s in values :: s in unit && FromBuild(prog, values[s], Built(code, s, pid, name, d, now)))
  {
    if unit != [] {
      UnitFromBuild(prog, code, pid, name, unit[1..], d, now);
      assert unit == [unit[0]] + unit[1..];
    }
  }

  /** Publishing a unit keeps every section explained, under the name the row then carries. */
  lemma PublishKeepsExplained(w: World, t: World, p: Pass, values: map<Section, Stored>)
    requires p.units != [] && PassExplained(w, p)
    requires BuildUnit(w.prog, p.code, p.pid, p.name, p.units[0], w.data, w.now) == Some(values)
    requires t.prog == w.prog && t.history == w.history + set s | s in p.units[0] ::
        Built(p.code, s, p.pid, p.name, w.data, w.now)
    ensures PageExplained(t, p.pid, PublishUnit(p.draft, p.name, p.units[0], values, w.now))
  {
    var unit := p.units[0];
    var page := PublishUnit(p.draft, p.name, unit, values, w.now);
    assert unit in p.units;
    UnitFromBuild(w.prog, p.code, p.pid, p.name, unit, w.data, w.now);
    forall s | s in page.sections ensures SectionExplained(t, p.pid, s, page.sections[s], page.companyName) {
      if s in values {
        var b := Built(p.code, s, p.pid, p.name, w.data, w.now);
        assert b in t.history;
      } else {
        assert s in p.draft.sections && s !in unit;
        SectionStaysExplained(w, t, p.pid, s, p.draft.sections[s], p.draft.companyName);
      }
    }
  }

  lemma SectionStaysExplained(w: World, t: World, pid: nat, s: Section, st: Stored, companyName: string)
    requires SectionExplained(w, pid, s, st, companyName) && w.history <= t.history && t.prog == w.prog
    ensures SectionExplained(t, pid, s, st, companyName)
  {
    var b :| b in w.history && b.section == s && b.page == pid && FromBuild(w.prog, st, b)
        && (s != Summary ==> b.name == companyName);
    assert b in t.history;
  }

  /** A token issued now was in no earlier snapshot, so touched scopes stop matching and the rest stay as told. */
  lemma TouchKeepsSnapshot(d: Data, after: Data, scopes: set<Scope>, now: real, snapshot: Data)
    requires TokensIssued(d) && SnapshotOk(d, snapshot)
    requires after == Touch(d, scopes, now).(values := after.values, names := after.names)
    requires forall s | s !in scopes :: Lookup(after.values, s) == Lookup(d.values, s)
    requires forall p | Protocol(p) !in scopes :: Lookup(after.names, p) == Lookup(d.names, p)
    ensures TokensIssued(after) && SnapshotOk(after, snapshot)
  {
    forall s ensures s in scopes ==> Lookup(after.tokens, s) == Some(d.next) != Lookup(snapshot.tokens, s)
             ensures s !in scopes ==> Lookup(after.tokens, s) == Lookup(d.tokens, s)
    {}
  }

  lemma PageStaysExplained(w: World, t: World, pid: nat, page: Page)
    requires PageExplained(w, pid, page) && w.history <= t.history && t.prog == w.prog
    ensures PageExplained(t, pid, page)
  {
    forall s | s in page.sections ensures SectionExplained(t, pid, s, page.sections[s], page.companyName) {
      SectionStaysExplained(w, t, pid, s, page.sections[s], page.companyName);
    }
  }

  /** Producer events move the data only, and touch the token of every scope whose value or name they change. */
  lemma TouchKeepsInv(w: World, after: Data, scopes: set<Scope>)
    requires Inv(w) && UniqueNames(after)
    requires after == Touch(w.data, scopes, w.now).(values := after.values, names := after.names)
    requires forall s | s !in scopes :: Lookup(after.values, s) == Lookup(w.data.values, s)
    requires forall p | Protocol(p) !in scopes :: Lookup(after.names, p) == Lookup(w.data.names, p)
    ensures Inv(w.(data := after))
  {
    var t := w.(data := after);
    assert TokensIssued(after);
    forall b | b in t.history ensures b.at <= t.now && SnapshotOk(t.data, b.snapshot) {
      TouchKeepsSnapshot(w.data, after, scopes, w.now, b.snapshot);
    }
    MovedWorldExplained(w, t);
  }

  lemma ProducerKeepsInv(w: World, e: Event)
    requires Inv(w) && (e.Write? || e.Rename?)
    ensures Inv(Step(w, e))
  {
    var t := Step(w, e);
    if t != w {
      TouchKeepsInv(w, t.data, if e.Write? then e.changes.Keys else {Protocol(e.pid)});
    }
  }

  lemma MovedWorldExplained(w: World, t: World)
    requires Inv(w) && t.prog == w.prog && w.history <= t.history && t.pages == w.pages && t.passes == w.passes
    ensures forall pid | pid in t.pages :: PageExplained(t, pid, t.pages[pid])
    ensures forall x | x in t.passes :: PassExplained(t, t.passes[x])
  {
    forall pid | pid in t.pages ensures PageExplained(t, pid, t.pages[pid]) {
      PageStaysExplained(w, t, pid, t.pages[pid]);
    }
    forall x | x in t.passes ensures PassExplained(t, t.passes[x]) {
      PageStaysExplained(w, t, t.passes[x].pid, t.passes[x].draft);
    }
  }

  /** A renamed row has no fresh section, so its structural unit rebuilds all of them. */
  lemma UnitsCoverRenames(cfg: Config, code: Code, pid: nat, page: Page, d: Data, now: real)
    requires pid in d.names
    ensures forall u | u in Units(cfg, code, pid, page, d, now) :: u == [Summary] || Covers(u, d.names[pid], page)
  {
    if d.names[pid] != page.companyName {
      forall s | s in page.sections && s != Summary ensures s in [Overview, Functions] {
        match s { case Overview => case Functions => }
      }
    }
  }

  lemma PickKeepsInv(w: World, worker: nat, code: Code, pid: nat)
    requires Inv(w)
    ensures Inv(Step(w, Pick(worker, code, pid)))
  {
    var t := Step(w, Pick(worker, code, pid));
    if t.passes != w.passes {
      UnitsCoverRenames(w.cfg, code, pid, w.pages[pid], w.data, w.now);
      assert PageExplained(w, pid, w.pages[pid]);
    }
    forall x | x in t.passes ensures PassExplained(t, t.passes[x]) {
      PageStaysExplained(w, t, t.passes[x].pid, t.passes[x].draft);
    }
    forall q | q in t.pages ensures PageExplained(t, q, t.pages[q]) {
      PageStaysExplained(w, t, q, t.pages[q]);
    }
  }

  lemma BuildKeepsInv(w: World, worker: nat, survives: bool)
    requires Inv(w)
    ensures Inv(Step(w, Build(worker, survives)))
  {
    var t := Step(w, Build(worker, survives));
    if worker in w.passes && w.passes[worker].units != [] {
      var p := w.passes[worker];
      assert PassExplained(w, p);
      forall u | u in p.units[1..] ensures u in p.units {}
      forall b | b in t.history ensures b.at <= t.now && SnapshotOk(t.data, b.snapshot) {}
      forall q | q in t.pages ensures PageExplained(t, q, t.pages[q]) {
        PageStaysExplained(w, t, q, t.pages[q]);
      }
      forall x | x in t.passes ensures PassExplained(t, t.passes[x]) {
        if x == worker {
          BuiltPassExplained(w, t, worker, survives);
        } else {
          PageStaysExplained(w, t, t.passes[x].pid, t.passes[x].draft);
        }
      }
    }
  }

  /** A published unit leaves the remaining ones covering the row. */
  lemma PublishKeepsCover(p: Pass, unit: seq<Section>, u: seq<Section>, values: map<Section, Stored>, now: real)
    requires unit == [Summary] || Covers(unit, p.name, p.draft)
    requires u == [Summary] || Covers(u, p.name, p.draft)
    requires forall s | s in values :: s in unit
    ensures u == [Summary] || Covers(u, p.name, PublishUnit(p.draft, p.name, unit, values, now))
  {}

  lemma BuiltPassExplained(w: World, t: World, worker: nat, survives: bool)
    requires worker in w.passes && w.passes[worker].units != [] && PassExplained(w, w.passes[worker])
    requires t == BuildStep(w, worker, survives)
    ensures PassExplained(t, t.passes[worker])
  {
    var p := w.passes[worker];
    var values := BuildUnit(w.prog, p.code, p.pid, p.name, p.units[0], w.data, w.now);
    if survives && values.Some? {
      PublishKeepsExplained(w, t, p, values.value);
      UnitFromBuild(w.prog, p.code, p.pid, p.name, p.units[0], w.data, w.now);
      assert p.units[0] in p.units;
      forall u | u in t.passes[worker].units ensures u == [Summary] || Covers(u, p.name, t.passes[worker].draft) {
        assert u in p.units;
        PublishKeepsCover(p, p.units[0], u, values.value, w.now);
      }
    } else {
      PageStaysExplained(w, t, p.pid, p.draft);
    }
  }

  lemma CommitKeepsInv(w: World, worker: nat)
    requires Inv(w)
    ensures Inv(Step(w, Commit(worker)))
  {
    var t := Step(w, Commit(worker));
    forall q | q in t.pages ensures PageExplained(t, q, t.pages[q]) {
      if worker in w.passes && q == w.passes[worker].pid {
        assert PassExplained(w, w.passes[worker]);
        if t.pages != w.pages {
          PageStaysExplained(w, t, q, w.passes[worker].draft);
          assert t.pages[q].sections == w.passes[worker].draft.sections
              && t.pages[q].companyName == w.passes[worker].draft.companyName;
        } else {
          PageStaysExplained(w, t, q, w.pages[q]);
        }
      } else {
        PageStaysExplained(w, t, q, w.pages[q]);
      }
    }
    forall x | x in t.passes ensures PassExplained(t, t.passes[x]) {
      PageStaysExplained(w, t, t.passes[x].pid, t.passes[x].draft);
    }
  }

  lemma StepKeepsInv(w: World, e: Event)
    requires Inv(w)
    ensures Inv(Step(w, e))
  {
    match e {
      case Write(_) => ProducerKeepsInv(w, e);
      case Rename(_, _) => ProducerKeepsInv(w, e);
      case Pick(worker, code, pid) => PickKeepsInv(w, worker, code, pid);
      case Build(worker, survives) => BuildKeepsInv(w, worker, survives);
      case Commit(worker) => CommitKeepsInv(w, worker);
      case _ => OtherKeepsInv(w, e);
    }
  }

  lemma StepKeepsProgram(w: World, e: Event)
    ensures Step(w, e).prog == w.prog
  {}

  lemma OtherKeepsInv(w: World, e: Event)
    requires Inv(w) && (e.Seed? || e.Crash? || e.Tick?)
    ensures Inv(Step(w, e))
  {
    var t := Step(w, e);
    forall q | q in t.pages ensures PageExplained(t, q, t.pages[q]) {
      if q in w.pages {
        PageStaysExplained(w, t, q, w.pages[q]);
      }
    }
    forall x | x in t.passes ensures PassExplained(t, t.passes[x]) {
      PageStaysExplained(w, t, t.passes[x].pid, t.passes[x].draft);
    }
  }

  lemma {:induction false} RunKeepsInv(w: World, run: seq<Event>)
    requires Inv(w)
    ensures Inv(Exec(w, run)) && Exec(w, run).prog == w.prog
    decreases |run|
  {
    if run != [] {
      StepKeepsInv(w, run[0]);
      StepKeepsProgram(w, run[0]);
      RunKeepsInv(Step(w, run[0]), run[1..]);
    }
  }

  /** What a reader running `code` gets for this name and section. */
  ghost function Served(w: World, code: Code, section: Section, name: string): Option<Response> {
    ReadResponse(w.cfg, code, section, name, w.pages, w.data, w.now)
  }

  /** A rebuild of this section from the data as it stands, with this code. */
  ghost function Rebuild(w: World, code: Code, section: Section, name: string): Option<Payload> {
    match Named(w.data, name)
    case None => None
    case Some(pid) => CurrentSection(w, code.digest, section, pid, name)
  }

  /** A fresh structural section used the name that is current now, so it is a rebuild. */
  lemma PreparedStructuralIsCurrent(w: World, code: Code, section: Section, name: string)
    requires Inv(w) && section != Summary
    requires Served(w, code, section, name).Some? && Served(w, code, section, name).value.source == Prepared
    ensures Rebuild(w, code, section, name) == Some(Served(w, code, section, name).value.body)
  {
    var pid := Named(w.data, name).value;
    var st := w.pages[pid].sections[section];
    assert PageExplained(w, pid, w.pages[pid]) && SectionExplained(w, pid, section, st, name);
    var b :| b in w.history && b.section == section && b.page == pid && FromBuild(w.prog, st, b) && b.name == name;
    assert Protocol(pid) in st.revisions && st.revisions[Protocol(pid)] == Lookup(b.snapshot.tokens, Protocol(pid));
    assert Lookup(b.snapshot.names, pid) == Some(name);
    NamedIs(b.snapshot, pid);
    CurrentTokensCurrentSection(w, st, b);
  }

  /**
   In every interleaving of writes, renames, snapshot builds, publications and deploys: an overview or functions
   response labelled prepared equals a rebuild from the current data with the reader's code.
   */
  lemma PreparedStructuralResponses(w: World, run: seq<Event>, code: Code, section: Section, name: string)
    requires Inv(w) && section != Summary
    ensures
      var t := Exec(w, run);
      var r := Served(t, code, section, name);
      r.Some? && r.value.source == Prepared ==> Rebuild(t, code, section, name) == Some(r.value.body)
  {
    RunKeepsInv(w, run);
    var t := Exec(w, run);
    var r := Served(t, code, section, name);
    if r.Some? && r.value.source == Prepared {
      PreparedStructuralIsCurrent(t, code, section, name);
    }
  }

  /** What a response that is not a rebuild still promises: a build for this page, its age and its markers. */
  ghost predicate BoundedStale(w: World, code: Code, section: Section, name: string, r: Response) {
    exists b | b in w.history ::
      && Some(b.page) == Named(w.data, name) && (section != Summary ==> b.name == name)
      && b.section == section && b.at == r.started && w.now - w.cfg.staleMax <= b.at <= w.now
      && SchemaOf(b.code, section) == SchemaOf(code, section) && b.code.epoch == code.epoch
          && b.code.chains == code.chains
      && BuildSection(w.prog, b.code.digest, section, b.name, b.snapshot).Some?
      && BuildSection(w.prog, b.code.digest, section, b.name, b.snapshot).value.0 == r.body
  }

  /**
   Any other served response was built for this page within the stale limit, under the reader's schema, epoch and
   chain set.
   */
  lemma StaleResponsesAreBounded(w: World, run: seq<Event>, code: Code, section: Section, name: string)
    requires Inv(w)
    ensures
      var t := Exec(w, run);
      var r := Served(t, code, section, name);
      r.Some? && r.value.source == PreparedStale ==> BoundedStale(t, code, section, name, r.value)
  {
    RunKeepsInv(w, run);
    var t := Exec(w, run);
    var r := Served(t, code, section, name);
    if r.Some? && r.value.source == PreparedStale {
      var pid := Named(t.data, name).value;
      var st := t.pages[pid].sections[section];
      assert PageExplained(t, pid, t.pages[pid]) && SectionExplained(t, pid, section, st, name);
      var b :| b in t.history && b.section == section && b.page == pid && FromBuild(t.prog, st, b)
        && (section != Summary ==> b.name == name);
    }
  }
}
