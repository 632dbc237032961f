/**
 The two stores behind the effects stage: the code-plane cache, one row per behaviour and shared by
 every deployment of the same bytecode, and the state-plane verdict rows, one per deployment.
 A deployment-plane key is an observation of one deployment's forked state.
 */
module EffectCache {
  import opened Common

  /** A JSON leaf; nested structure is opaque and only compared. */
  datatype Json = Null | Flag(b: bool) | Num(n: int) | Text(s: string) | Nested(id: int)

  type Details = map<string, Json>

  datatype Verdict = Proven | Unknown
  datatype Tier = Historical | Call | Fork
  datatype EffectClass = FreezePause | ValueOut | CodeUpgrade | AuthorityChange | Supply
  datatype Scope = Kernel | Projection
  datatype Audit = Passed | Failed

  datatype CacheKey = CacheKey(hash: string, effectClass: EffectClass, scope: Scope, surface: string, gateRef: string)

  datatype CacheRow = CacheRow(
    verdict: Verdict, tier: Tier, transcript: Option<string>, details: Option<Details>,
    version: nat, audit: Option<Audit>, peer: Option<string>, hits: nat)

  /** One deployment's state-plane identity. */
  datatype Identity = Identity(chain: nat, address: string, selector: string, effectClass: EffectClass)

  datatype VerdictRow = VerdictRow(
    hash: Option<string>, verdict: Verdict, tier: Tier, destination: Option<Json>, currentCheck: Option<Json>,
    residue: Option<Details>, evidence: Option<Details>, transcript: Option<string>)

  const SURFACE_SENTINEL := ""
  const ATTEMPTS_KEY := "destination_probe_attempts"
  const REASON_KEY := "reason"
  const DESTINATION_KEY := "destination"
  const CURRENT_CHECK_KEY := "current_check_passed"

  const BOOKKEEPING_KEYS: set<string> := {ATTEMPTS_KEY}

  const DEPLOYMENT_PLANE_KEYS: set<string> := {
    "observed_blast_radius", "pre_pause_succeeding", "scored_denominator", "input_seeded",
    "contract_balance_seeded", "backing", "pause_effective", "auto_expiry", "block_number", "block_source"
  }

  const KERNEL_SIGNATURE_KEYS: seq<string> := [
    "latch_flip", "gate_mutation", "upgradeable", "supply_delta_sign", "destination_shape"
  ]

  /** Kernel rows carry no surface. */
  function Normalized(key: CacheKey): CacheKey {
    if key.scope == Kernel then key.(surface := SURFACE_SENTINEL) else key
  }

  function Dict(d: Option<Details>): Details {
    if d.Some? then d.value else map[]
  }

  /** `d.get(key)`: an explicit null reads as absent. */
  function Get(d: Details, key: string): Option<Json> {
    if key in d && d[key] != Null then Some(d[key]) else None
  }

  /** A dictionary or `None` when it is empty, as `d or None` gives. */
  function OrNone(d: Details): Option<Details> {
    if d == map[] then None else Some(d)
  }

  function CodePlane(d: Option<Details>): Option<Details> {
    if Dict(d) == map[] then d else Some(d.value - DEPLOYMENT_PLANE_KEYS)
  }

  function DeploymentPlane(d: Details): Details {
    map k | k in d && k in DEPLOYMENT_PLANE_KEYS :: d[k]
  }

  function KernelSignature(verdict: Verdict, details: Details): (Verdict, seq<Option<Json>>) {
    (verdict, seq(|KERNEL_SIGNATURE_KEYS|,
        i requires 0 <= i < |KERNEL_SIGNATURE_KEYS| => Get(details, KERNEL_SIGNATURE_KEYS[i])))
  }

  /** A signature with no structural key cannot falsify anything. */
  predicate Comparable(details: Details) {
    exists k | k in KERNEL_SIGNATURE_KEYS :: k in details
  }

  predicate VerdictsAgree(cached: Verdict, cachedDetails: Details, seen: Verdict, freshDetails: Details) {
    KernelSignature(cached, cachedDetails) == KernelSignature(seen, freshDetails)
  }

  /** The conflict arm of the code-plane upsert: every column but the audit stamp and the hit count moves. */
  function Refreshed(existing: Option<CacheRow>, seen: CacheRow): CacheRow {
    match existing
    case None => seen
    case Some(row) => seen.(audit := row.audit, peer := row.peer, hits := row.hits)
  }

  /** One state-plane write. `fromCache` says the witness was served without re-simulation. */
  datatype VerdictWrite = VerdictWrite(row: VerdictRow, fromCache: bool)

  predicate ResidueStands(stored: VerdictRow, incoming: VerdictRow) {
    incoming.hash == stored.hash && incoming.verdict == stored.verdict
  }

  function KeepResidue(stands: bool, incoming: Option<Json>, stored: Option<Json>): Option<Json> {
    if incoming.Some? then incoming else if stands then stored else None
  }

  function Bookkeeping(d: Details): Details {
    map k | k in d && k in BOOKKEEPING_KEYS :: d[k]
  }

  function MergeResidue(stands: bool, incoming: Option<Details>, stored: Option<Details>): Option<Details> {
    OrNone((if stands then Dict(stored) else Bookkeeping(Dict(stored))) + Dict(incoming))
  }

  function MergeWitness(stands: bool, incoming: Option<Details>, stored: Option<Details>): Option<Details> {
    if stands && Dict(incoming) != map[] then OrNone(DeploymentPlane(Dict(stored)) + Dict(incoming))
    else if stands then stored
    else incoming
  }

  /** The state-plane upsert with its three merge rules. */
  function Recorded(existing: Option<VerdictRow>, w: VerdictWrite): VerdictRow {
    match existing
    case None => w.row
    case Some(stored) =>
      var stands := ResidueStands(stored, w.row);
      w.row.(
        destination := KeepResidue(stands, w.row.destination, stored.destination),
        currentCheck := KeepResidue(stands, w.row.currentCheck, stored.currentCheck),
        residue := MergeResidue(stands, w.row.residue, stored.residue),
        evidence := if w.fromCache then MergeWitness(stands, w.row.evidence, stored.evidence) else w.row.evidence)
  }
}
