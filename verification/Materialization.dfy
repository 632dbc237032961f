/**
 The cross-process materialization cache with inline payloads: one row per (chain, bytecode keccak), claimed,
 built outside any transaction, and published. Each short transaction under the key's advisory lock is one
 atomic step; the failure write takes no lock and is a step of its own.
 */
module Materialization {
  import opened Common

  datatype Key = Key(chain: string, keccak: string)

  /** A bundle's payloads in canonical text form; a payload that is not an object is absent. */
  datatype Bundle = Bundle(name: Option<string>, analysis: Option<string>, plan: Option<string>, trees: Option<string>)

  const NO_BUNDLE := Bundle(None, None, None, None)

  datatype Status = Pending | Building | Ready | Failed

  datatype Row = Row(
    address: string, bundle: Bundle, status: Status, error: Option<string>, deterministic: bool,
    startedAt: Option<real>, source: Option<string>, version: nat)

  type Table = map<Key, Row>

  datatype Config = Config(staleness: real, poll: real)

  /** Where a call to `materialize_or_wait` stands. */
  datatype Phase =
    | Polling(wakeAt: real)
    | Claimed(at: real, no: nat, landing: nat)
    | Raising(error: string, deterministic: bool)
    | Built(bundle: Bundle)
    | Refetching
    | Returned(row: Row)
    | Remembered(error: string)
    | Errored

  datatype Caller = Caller(key: Key, address: string, version: nat, source: Option<string>, entered: real, phase: Phase)

  predicate ReadyAt(row: Row, version: nat) {
    row.status == Ready && row.version == version
  }

  predicate IsReady(rows: Table, key: Key, version: nat) {
    key in rows && ReadyAt(rows[key], version)
  }

  /** The unique index on (chain, address) would refuse this address for this key. */
  predicate AddressTaken(rows: Table, key: Key, address: string) {
    exists k | k in rows :: k != key && k.chain == key.chain && rows[k].address == address
  }

  predicate Remembers(row: Row, c: Caller) {
    && row.status == Failed && row.deterministic && row.version == c.version && row.address == c.address
    && row.source.Some? && row.source == c.source
  }

  /** A claim is trusted while it is young and the waiting caller has not waited out the staleness period. */
  predicate MustWait(cfg: Config, row: Row, now: real, c: Caller) {
    && row.status == Building && row.startedAt.Some?
    && now - row.startedAt.value < cfg.staleness && now < c.entered + cfg.staleness
  }

  predicate Reusable(rows: Table, c: Caller, donor: Key) {
    && c.source.Some? && c.source.value != ""
    && donor in rows && rows[donor].source == c.source && ReadyAt(rows[donor], c.version)
  }

  /** `donor` is a possible answer of the donor query. */
  ghost predicate DonorOk(rows: Table, c: Caller, donor: Option<Key>) {
    if donor.Some? then Reusable(rows, c, donor.value) else forall k | k in rows :: !Reusable(rows, c, k)
  }

  function CopiedRow(rows: Table, c: Caller, donor: Row): Row {
    var flag := c.key in rows && rows[c.key].deterministic;
    Row(c.address, donor.bundle, Ready, None, flag, None, c.source, c.version)
  }

  /** A claim leaves the payload columns as they were. */
  function ClaimedRow(rows: Table, c: Caller, now: real): Row {
    var bundle := if c.key in rows then rows[c.key].bundle else NO_BUNDLE;
    Row(c.address, bundle, Building, None, false, Some(now), c.source, c.version)
  }

  /** The unlocked failure write: it sets no address and no payload on a row that exists. */
  function FailedRow(rows: Table, c: Caller, error: string, deterministic: bool): Row {
    var address := if c.key in rows then rows[c.key].address else c.address;
    var bundle := if c.key in rows then rows[c.key].bundle else NO_BUNDLE;
    Row(address, bundle, Failed, Some(error), deterministic, None, c.source, c.version)
  }

  function ReadyRow(rows: Table, key: Key, address: string, bundle: Bundle, source: Option<string>, version: nat): Row {
    var flag := key in rows && rows[key].deterministic;
    Row(address, bundle, Ready, None, flag, None, source, version)
  }

  function RememberedError(row: Row): string {
    if row.error.Some? && row.error.value != "" then row.error.value else "build failed"
  }

  /** One pass of the polling loop: the table and the caller's phase afterwards. */
  function PollResult(cfg: Config, rows: Table, now: real, c: Caller, no: nat, landing: nat,
      donor: Option<Key>): (Table, Phase)
    requires donor.Some? ==> donor.value in rows
  {
    if IsReady(rows, c.key, c.version) then (rows, Returned(rows[c.key]))
    else if c.key in rows && Remembers(rows[c.key], c) then (rows, Remembered(RememberedError(rows[c.key])))
    else if c.key in rows && MustWait(cfg, rows[c.key], now, c) then (rows, Polling(now + cfg.poll))
    else if AddressTaken(rows, c.key, c.address) then (rows, Errored)
    else if donor.Some? then (rows[c.key := CopiedRow(rows, c, rows[donor.value])], Refetching)
    else (rows[c.key := ClaimedRow(rows, c, now)], Claimed(now, no, landing))
  }

  /** The third phase: a takeover that finished first is served, otherwise the whole bundle is written. */
  function FinishResult(rows: Table, c: Caller, bundle: Bundle): (Table, Phase) {
    if IsReady(rows, c.key, c.version) then (rows, Returned(rows[c.key]))
    else if AddressTaken(rows, c.key, c.address) then (rows, Errored)
    else (rows[c.key := ReadyRow(rows, c.key, c.address, bundle, c.source, c.version)], Refetching)
  }

  datatype PublishOutcome =
    | Written | Refreshed | AlreadyCurrent | KeccakBoundElsewhere | AddressBoundElsewhere | Incomplete

  /** An already-built bundle offered to the table. */
  datatype Offer = Offer(
    key: Key, address: string, version: nat, bundle: Bundle, source: Option<string>, refreshOnDiffer: bool,
        semanticFailure: bool)

  predicate Differs(row: Row, bundle: Bundle) {
    (row.bundle.analysis, row.bundle.plan, row.bundle.trees) != (bundle.analysis, bundle.plan, bundle.trees)
  }

  function PublishDecision(rows: Table, o: Offer): PublishOutcome {
    if o.bundle.analysis.None? || o.bundle.plan.None? || o.semanticFailure then Incomplete
    else if IsReady(rows, o.key, o.version) && rows[o.key].address != o.address then KeccakBoundElsewhere
    else if IsReady(rows, o.key, o.version) && !(o.refreshOnDiffer && Differs(rows[o.key], o.bundle))
        then AlreadyCurrent
    else if AddressTaken(rows, o.key, o.address) then AddressBoundElsewhere
    else if IsReady(rows, o.key, o.version) then Refreshed
    else Written
  }

  function PublishResult(rows: Table, o: Offer): Table {
    if PublishDecision(rows, o) in {Written, Refreshed}
    then rows[o.key := ReadyRow(rows, o.key, o.address, o.bundle, o.source, o.version)]
    else rows
  }

  /** A build or publish that produced a bundle, and a builder run that raised. */
  datatype Production = Production(key: Key, version: nat, bundle: Bundle, source: Option<string>)
  datatype Raise = Raise(
    key: Key, address: string, version: nat, source: Option<string>, error: string, deterministic: bool)

  /**
   The table, the clock, every call, and what happened so far: the claims made, for each key the number of
   claims made when a failure last landed on it, the productions and the raises.
   */
  datatype World = World(
    cfg: Config, now: real, rows: Table, callers: map<nat, Caller>, claims: nat, landings: map<Key, nat>,
    productions: set<Production>, raises: set<Raise>)

  datatype Event =
    | Enter(id: nat, key: Key, address: string, version: nat, source: Option<string>)
    | Poll(id: nat, prefer: Option<Key>)
    | BuilderReturns(id: nat, bundle: Bundle)
    | BuilderRaises(id: nat, error: string, deterministic: bool)
    | FailureLands(id: nat)
    | Finish(id: nat)
    | Refetch(id: nat)
    | Crash(id: nat)
    | Publish(offer: Offer)
    | Tick(seconds: real)

  ghost function PickDonor(rows: Table, c: Caller, prefer: Option<Key>): (donor: Option<Key>)
    ensures DonorOk(rows, c, donor)
    ensures donor.Some? ==> donor.value in rows
  {
    if prefer.Some? && Reusable(rows, c, prefer.value) then prefer
    else if exists k | k in rows :: Reusable(rows, c, k) then
      var k :| k in rows && Reusable(rows, c, k);
      Some(k)
    else None
  }

  function Landing(w: World, key: Key): nat {
    if key in w.landings then w.landings[key] else 0
  }

  function InPhase(w: World, id: nat, phase: Phase): World
    requires id in w.callers
  {
    w.(callers := w.callers[id := w.callers[id].(phase := phase)])
  }

  ghost function Polled(w: World, id: nat, prefer: Option<Key>): World
    requires id in w.callers
  {
    var c := w.callers[id];
    var r := PollResult(w.cfg, w.rows, w.now, c, w.claims, Landing(w, c.key), PickDonor(w.rows, c, prefer));
    InPhase(w, id, r.1).(rows := r.0, claims := w.claims + if r.1.Claimed? then 1 else 0)
  }

  /** One step; an event that is not enabled changes nothing. */
  ghost function Step(w: World, e: Event): World {
    match e
    case Enter(id, key, address, version, source) =>
      if id in w.callers then w
      else w.(callers := w.callers[id := Caller(key, address, version, source, w.now, Polling(w.now))])
    case Poll(id, prefer) =>
      if id in w.callers && w.callers[id].phase.Polling? && w.callers[id].phase.wakeAt <= w.now
          then Polled(w, id, prefer) else w
    case BuilderReturns(id, bundle) =>
      if id !in w.callers || !w.callers[id].phase.Claimed? then w else
      var c := w.callers[id];
      InPhase(w, id, Built(bundle)).(productions := w.productions + {Production(c.key, c.version, bundle, c.source)})
    case BuilderRaises(id, error, deterministic) =>
      if id !in w.callers || !w.callers[id].phase.Claimed? then w else
      var c := w.callers[id];
      var raised := Raise(c.key, c.address, c.version, c.source, error, deterministic);
      InPhase(w, id, Raising(error, deterministic)).(raises := w.raises + {raised})
    case FailureLands(id) =>
      if id !in w.callers || !w.callers[id].phase.Raising? then w else
      var c := w.callers[id];
      var row := FailedRow(w.rows, c, c.phase.error, c.phase.deterministic);
      InPhase(w, id, Errored).(rows := w.rows[c.key := row], landings := w.landings[c.key := w.claims])
    case Finish(id) =>
      if id !in w.callers || !w.callers[id].phase.Built? then w else
      var r := FinishResult(w.rows, w.callers[id], w.callers[id].phase.bundle);
      InPhase(w, id, r.1).(rows := r.0)
    case Refetch(id) =>
      if id !in w.callers || !w.callers[id].phase.Refetching? || w.callers[id].key !in w.rows then w
      else InPhase(w, id, Returned(w.rows[w.callers[id].key]))
    case Crash(id) => w.(callers := w.callers - {id})
    case Publish(o) =>
      var produced := if PublishDecision(w.rows, o) in {Written, Refreshed}
                      then {Production(o.key, o.version, o.bundle, o.source)} else {};
      w.(rows := PublishResult(w.rows, o), productions := w.productions + produced)
    case Tick(seconds) => if seconds >= 0.0 then w.(now := w.now + seconds) else w
  }

  ghost function Exec(w: World, run: seq<Event>): World
    decreases |run|
  {
    if run == [] then w else Exec(Step(w, run[0]), run[1..])
  }
}
