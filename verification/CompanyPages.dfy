/**
 Prepared company pages: a cache of built sections validated by revision tokens. Producers change data and
 its tokens in one transaction; a build reads data and tokens in one snapshot and is published later.
 */
module CompanyPages {
  import opened Common

  datatype Section = Overview | Functions | Summary

  const SECTIONS: seq<Section> := [Overview, Functions, Summary]

  /** A dependency scope. Protocol scopes are fingerprints of everything recorded under them. */
  datatype Scope =
    | All | OverviewAll | SummaryAll
    | Protocol(id: nat) | OverviewProtocol(id: nat) | SummaryProtocol(id: nat)
    | Tracked(name: string)

  type Value = string
  type Payload = string

  /** Producer data. A scope that was never written has neither value nor token. */
  datatype Data = Data(
    values: map<Scope, Value>, tokens: map<Scope, nat>, changed: map<Scope, real>, names: map<nat, string>, next: nat)

  function Lookup<K, V>(m: map<K, V>, k: K): Option<V> {
    if k in m then Some(m[k]) else None
  }

  /** What a build does next, given the answers so far. */
  datatype Action = Ask(scope: Scope) | Finish(payload: Payload) | Fail

  type Strategy = seq<Option<Value>> -> Action

  /** The page builders of each code digest, and the number of reads after which a build times out. */
  datatype Program = Program(recipe: (string, Section, nat, string) -> Strategy, budget: nat)

  /** Run a build over one snapshot: the payload and the scopes it read, or nothing if it failed. */
  function RunStrategy(s: Strategy, d: Data, seen: seq<Option<Value>>, budget: nat): Option<(Payload, set<Scope>)>
    decreases budget
  {
    match s(seen)
    case Finish(p) => Some((p, {}))
    case Fail => None
    case Ask(scope) =>
      if budget == 0 then None else
      match RunStrategy(s, d, seen + [Lookup(d.values, scope)], budget - 1)
      case None => None
      case Some(r) => Some((r.0, r.1 + {scope}))
  }

  /** What the summary of a protocol is made of: its own summary scope and the shared one. */
  predicate SummaryScope(scope: Scope, pid: nat) {
    scope == SummaryAll || scope == SummaryProtocol(pid)
  }

  /** The summary builders read nothing else. */
  ghost predicate SummaryLocal(prog: Program) {
    forall digest, pid, seen ::
      var next := prog.recipe(digest, Summary, pid, "")(seen);
      next.Ask? ==> SummaryScope(next.scope, pid)
  }

  /** The protocol a name denotes; names are unique. */
  ghost function Named(d: Data, name: string): Option<nat> {
    if exists p | p in d.names :: d.names[p] == name then
      var p :| p in d.names && d.names[p] == name;
      Some(p)
    else None
  }

  /** The summary payload does not mention the name; the structural payloads do. */
  function NameArgument(section: Section, name: string): string {
    if section == Summary then "" else name
  }

  /** Build a section by company name, as the code of `digest` does. */
  ghost function BuildSection(prog: Program, digest: string, section: Section, name: string, d: Data): Option<(Payload,
      set<Scope>)>
  {
    match Named(d, name)
    case None => None
    case Some(p) => RunStrategy(prog.recipe(digest, section, p, NameArgument(section, name)), d, [], prog.budget)
  }

  function DependenciesFor(pid: nat, section: Section): set<Scope> {
    match section
    case Summary => {SummaryAll, SummaryProtocol(pid)}
    case Functions => {All, Protocol(pid)}
    case Overview => {All, Protocol(pid), OverviewAll, OverviewProtocol(pid)}
  }

  /** The code a process runs: its digest and the markers it serves under. */
  datatype Code = Code(digest: string, schema: map<Section, nat>, epoch: nat, chains: string)

  function SchemaOf(code: Code, section: Section): nat {
    if section in code.schema then code.schema[section] else 0
  }

  /** A published section with the tokens of every scope its build depended on. */
  datatype Stored = Stored(
    body: Payload, revisions: map<Scope, Option<nat>>, started: real, schema: nat, epoch: nat, chains: string,
        digest: string)

  datatype Page = Page(sections: map<Section, Stored>, companyName: string, attempts: nat, nextAttempt: real)

  /** Rebuild pacing of a section's group, in seconds. */
  datatype Timing = Timing(quiet: real, interval: real, wait: real)

  datatype Config = Config(summary: Timing, structural: Timing, staleMax: real)

  function TimingOf(cfg: Config, section: Section): Timing {
    if section == Summary then cfg.summary else cfg.structural
  }

  predicate MarkersCurrent(code: Code, section: Section, st: Stored, now: real) {
    st.schema == SchemaOf(code, section) && st.epoch == code.epoch && st.chains == code.chains && st.started <= now
  }

  predicate WithinStaleLimit(cfg: Config, st: Stored, now: real) {
    st.started >= now - cfg.staleMax
  }

  predicate RevisionsCurrent(st: Stored, pid: nat, section: Section, d: Data) {
    && DependenciesFor(pid, section) <= st.revisions.Keys
    && forall s | s in st.revisions :: st.revisions[s] == Lookup(d.tokens, s)
  }

  predicate ChangedWithin(st: Stored, d: Data, now: real, seconds: real) {
    exists s | s in st.revisions :: st.revisions[s] != Lookup(d.tokens, s) && s in d.changed
        && d.changed[s] > now - seconds
  }

  predicate SameCodeAndData(code: Code, pid: nat, section: Section, st: Stored, d: Data) {
    st.digest == code.digest && RevisionsCurrent(st, pid, section, d)
  }

  predicate Servable(cfg: Config, code: Code, pid: nat, section: Section, page: Page, d: Data, now: real) {
    && section in page.sections
    && var st := page.sections[section];
       && MarkersCurrent(code, section, st, now)
       && (SameCodeAndData(code, pid, section, st, d) || WithinStaleLimit(cfg, st, now))
  }

  predicate Renamed(pid: nat, page: Page, d: Data) {
    Lookup(d.names, pid) != Some(page.companyName)
  }

  predicate Missing(cfg: Config, code: Code, pid: nat, section: Section, page: Page, d: Data, now: real) {
    !Servable(cfg, code, pid, section, page, d, now) || Renamed(pid, page, d)
  }

  predicate Due(cfg: Config, code: Code, pid: nat, section: Section, page: Page, d: Data, now: real) {
    || Missing(cfg, code, pid, section, page, d, now)
    || (var st := page.sections[section];
        var pace := TimingOf(cfg, section);
        && st.started <= now - pace.interval
        && (|| st.digest != code.digest
            || (!RevisionsCurrent(st, pid, section, d)
                && (!ChangedWithin(st, d, now, pace.quiet) || st.started <= now - pace.wait))))
  }

  predicate Fresh(cfg: Config, code: Code, pid: nat, section: Section, page: Page, d: Data, now: real) {
    && Servable(cfg, code, pid, section, page, d, now)
    && !Renamed(pid, page, d)
    && SameCodeAndData(code, pid, section, page.sections[section], d)
  }

  datatype Source = Prepared | PreparedStale

  datatype Response = Response(body: Payload, source: Source, started: real)

  /** The read path: the section of the page whose protocol and prepared row both carry this name. */
  ghost function ReadResponse(cfg: Config, code: Code, section: Section, name: string, pages: map<nat, Page>, d: Data,
      now: real): Option<Response>
  {
    match Named(d, name)
    case None => None
    case Some(pid) =>
      if pid in pages && pages[pid].companyName == name && section in pages[pid].sections
         && MarkersCurrent(code, section, pages[pid].sections[section], now)
      then
        var st := pages[pid].sections[section];
        if SameCodeAndData(code, pid, section, st, d) then Some(Response(st.body, Prepared, st.started))
        else if WithinStaleLimit(cfg, st, now) then Some(Response(st.body, PreparedStale, st.started))
        else None
      else None
  }

  /** The sections one pass rebuilds: the summary alone, then every structural section that is not fresh. */
  function Units(cfg: Config, code: Code, pid: nat, page: Page, d: Data, now: real): seq<seq<Section>> {
    var summary := if Due(cfg, code, pid, Summary, page, d, now) then [[Summary]] else [];
    var structural :=
      (if Fresh(cfg, code, pid, Overview, page, d, now) then [] else [Overview])
      + (if Fresh(cfg, code, pid, Functions, page, d, now) then [] else [Functions]);
    if Due(cfg, code, pid, Overview, page, d, now) || Due(cfg, code, pid, Functions, page, d, now)
    then summary + [structural] else summary
  }

  predicate Structural(unit: seq<Section>) {
    Summary !in unit
  }

  /** The scopes a build adds to its section's own: the structural builders track what they read, the summary none. */
  function TrackedBy(section: Section, scopes: set<Scope>): set<Scope> {
    if section == Summary then {} else scopes
  }

  /** What `_build` records for one section. */
  function StoredOf(code: Code, pid: nat, section: Section, built: (Payload, set<Scope>), d: Data, now: real): Stored {
    Stored(
      built.0,
      map s | s in DependenciesFor(pid, section) + TrackedBy(section, built.1) :: Lookup(d.tokens, s),
      now, SchemaOf(code, section), code.epoch, code.chains, code.digest)
  }

  /** One unit over one snapshot: every section's new columns, or nothing if any section fails. */
  ghost function BuildUnit(prog: Program, code: Code, pid: nat, name: string, unit: seq<Section>, d: Data,
      now: real): Option<map<Section, Stored>>
  {
    if unit == [] then Some(map[]) else
    match (BuildSection(prog, code.digest, unit[0], name, d), BuildUnit(prog, code, pid, name, unit[1..], d, now))
    case (Some(built), Some(rest)) => Some(map[unit[0] := StoredOf(code, pid, unit[0], built, d, now)] + rest)
    case _ => None
  }

  /** The page row after a unit is published; a rename lands with the structural sections. */
  function PublishUnit(page: Page, name: string, unit: seq<Section>, values: map<Section, Stored>, now: real): Page {
    Page(page.sections + values, if Structural(unit) then name else page.companyName, 0, now)
  }

  function Backoff(attempts: nat): nat {
    Min(300, 5 * Pow2(Min(attempts, 6)))
  }
}
