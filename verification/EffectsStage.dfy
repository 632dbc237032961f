/**
 One effects job: plan every staged behaviour against the stores, run the recipes that are needed, then
 resolve and record the items in order.
 */
module EffectsStage {
  import opened Common
  import opened EffectCache

  /** What one recipe observed. */
  datatype Effect = Effect(
    verdict: Verdict, tier: Tier, reason: string, details: Details, concrete: Details,
    transcript: Option<string>, discrepancy: Option<string>, stateDependent: bool)
  {
    /** The persisted witness: the details plus the reason. */
    function Payload(): Details {
      if reason == "" then details else details[REASON_KEY := Text(reason)]
    }
  }

  /** A staged behaviour. `outcome` is what its recipe yields when it is run; `None` means it raises. */
  datatype Plan = Plan(
    id: Identity, hash: string, scope: Scope, surface: string, gateRef: string, replay: bool, outcome: Option<Effect>)
  {
    function Key(): CacheKey {
      Normalized(CacheKey(hash, id.effectClass, scope, surface, gateRef))
    }
  }

  /** A job at one cache schema version; `residueProbes` is the re-observation switch. */
  datatype Job = Job(version: nat, plans: seq<Plan>, residueProbes: bool)

  datatype Item = Item(plan: Plan, hit: bool, needsAudit: bool, residueProbe: bool, residueAttempts: nat)
  {
    predicate ReProbed() {
      residueProbe && plan.scope == Kernel
    }

    predicate Ran() {
      !hit || needsAudit || ReProbed()
    }

    function Probed(): Option<Effect> {
      if Ran() then plan.outcome else None
    }
  }

  datatype Db = Db(cache: map<CacheKey, CacheRow>, verdicts: map<Identity, VerdictRow>)

  const CACHEABLE_REASONS: set<string> := {
    "no_value_observed", "no_supply_delta", "impl_slot_unchanged", "no_authorization_delta_observed",
    "no_blast_radius_observed", "bare_sentinel_proves_nothing"
  }
  const MAX_RESIDUE_ATTEMPTS := 2
  const SHAPE_KEY := "destination_shape"
  const CALLER_ARBITRARY := Text("caller_arbitrary")

  const RESIDUE_JSON_KEYS: set<string> := {
    "observed_reach_value_usd", "observed_reach_holders", "reach_indeterminate", "reach_determined",
    "observed_reach_floor_usd", "observed_reach_assets", "observed_reach_unvalued_pairs",
    "observed_reach_unvalued_assets", "observed_reach_unvalued_reasons", "observed_reach_priced_usd",
    "observed_reach_priced_holders", "reach_tvl_check", "observed_reach_rejected_usd", "protocol_tvl_usd",
    "backing_inflow_transfers", "backing_mint_transfers", "proving_execution"
  }

  predicate Cacheable(eff: Effect) {
    eff.tier != Historical && !eff.stateDependent && (eff.verdict == Proven || eff.reason in CACHEABLE_REASONS)
  }

  predicate ResidueObservable(row: CacheRow, effectClass: EffectClass) {
    effectClass == ValueOut && row.verdict == Proven && Get(Dict(row.details), SHAPE_KEY) != Some(CALLER_ARBITRARY)
  }

  function AttemptsOf(residue: Option<Details>): nat {
    match Get(Dict(residue), ATTEMPTS_KEY)
    case Some(Num(n)) => if n > 0 then n else 0
    case _ => 0
  }

  /** The one residue key a hit may contribute. */
  function ResidueOnly(concrete: Details, effectClass: EffectClass): Details {
    match (effectClass, Get(concrete, DESTINATION_KEY))
    case (ValueOut, Some(v)) => map[DESTINATION_KEY := v]
    case _ => map[]
  }

  function ObservedResidue(it: Item, concrete: Details): Option<Details> {
    var reach := map k | k in concrete && k in RESIDUE_JSON_KEYS :: concrete[k];
    OrNone(if it.residueProbe then reach[ATTEMPTS_KEY := Num(it.residueAttempts + 1)] else reach)
  }

  /** What an audited hit persists: the cache's code plane with the fresh probe's own deployment plane. */
  function WithFreshDeploymentPlane(cached: Option<Details>, seen: Effect): Option<Details> {
    OrNone(Dict(CodePlane(cached)) + DeploymentPlane(seen.Payload()))
  }

  function PlanItem(db: Db, job: Job, p: Plan): Item {
    var key := p.Key();
    var hit := !p.replay && key in db.cache && db.cache[key].version == job.version;
    var needsAudit := hit && db.cache[key].audit.None?;
    if job.residueProbes && hit && !needsAudit && ResidueObservable(db.cache[key], p.id.effectClass) then
      if p.id !in db.verdicts then Item(p, hit, needsAudit, true, 0)
      else
        var stored := db.verdicts[p.id];
        var attempts := AttemptsOf(stored.residue);
        Item(p, hit, needsAudit, stored.destination.None? && attempts < MAX_RESIDUE_ATTEMPTS, attempts)
    else
      Item(p, hit, needsAudit, false, 0)
  }

  function Planned(db: Db, job: Job): (items: seq<Item>)
    ensures |items| == |job.plans|
  {
    seq(|job.plans|, i requires 0 <= i < |job.plans| => PlanItem(db, job, job.plans[i]))
  }

  /** The cached rows the planning pass loaded; a job keeps reading these objects while it writes. */
  function Loaded(db: Db, items: seq<Item>): map<CacheKey, CacheRow> {
    map it | it in items && it.hit && it.plan.Key() in db.cache :: it.plan.Key() := db.cache[it.plan.Key()]
  }

  datatype Withheld = AuditProbeFailed | KernelHashCollision | PoisonedKey

  datatype Kind = ProbeFailed | Miss | AuditedHit | FloorDisagreed | Refused(why: Withheld) | PlainHit

  function Withholding(it: Item): VerdictWrite {
    VerdictWrite(VerdictRow(Some(it.plan.hash), Unknown, Call, None, None, ObservedResidue(it, map[]), None, None),
        false)
  }

  /** The write of an effect this deployment's own probe produced. */
  function FreshWrite(it: Item, eff: Effect): VerdictWrite {
    VerdictWrite(
      VerdictRow(
        Some(it.plan.hash), eff.verdict, eff.tier, Get(eff.concrete, DESTINATION_KEY),
            Get(eff.concrete, CURRENT_CHECK_KEY),
        ObservedResidue(it, eff.concrete), OrNone(eff.Payload()), eff.transcript),
      false)
  }

  /** The write of a verdict the cache served, with the residue key the hit may contribute. */
  function ServedWrite(it: Item, row: CacheRow, details: Option<Details>, concrete: Details,
      fromCache: bool): VerdictWrite
  {
    VerdictWrite(
      VerdictRow(
        Some(it.plan.hash), row.verdict, row.tier, Get(concrete, DESTINATION_KEY), Get(concrete, CURRENT_CHECK_KEY),
        ObservedResidue(it, concrete), OrNone(Dict(details)), row.transcript),
      fromCache)
  }

  /** The audit rule: structural signatures when both carry one, otherwise verdict and reason. */
  predicate AuditMatches(row: CacheRow, seen: Effect) {
    if Comparable(Dict(row.details)) && Comparable(seen.Payload())
    then VerdictsAgree(row.verdict, Dict(row.details), seen.verdict, seen.details)
    else row.verdict == seen.verdict && Get(Dict(row.details), REASON_KEY) == Get(seen.Payload(), REASON_KEY)
  }

  function FreshRow(eff: Effect, version: nat): CacheRow {
    CacheRow(eff.verdict, eff.tier, eff.transcript, CodePlane(OrNone(eff.Payload())), version, None, None, 0)
  }

  /** The loaded cache row an item reads; `None` on a miss. */
  function RowFor(loaded: map<CacheKey, CacheRow>, it: Item): Option<CacheRow> {
    if it.hit && it.plan.Key() in loaded then Some(loaded[it.plan.Key()]) else None
  }

  /** The branch that resolves an item. */
  function KindOf(row: Option<CacheRow>, it: Item): Kind {
    match row
    case None => if it.Probed().None? then ProbeFailed else Miss
    case Some(cached) =>
      if it.needsAudit then
        match it.Probed()
        case None => Refused(AuditProbeFailed)
        case Some(seen) =>
          if AuditMatches(cached, seen) then AuditedHit
          else if Comparable(Dict(cached.details)) && Comparable(seen.Payload()) then Refused(KernelHashCollision)
          else FloorDisagreed
      else if cached.audit == Some(Failed) then Refused(PoisonedKey)
      else PlainHit
  }

  /** The state-plane write of that branch. */
  function WriteOf(row: Option<CacheRow>, it: Item): VerdictWrite {
    match (KindOf(row, it), it.Probed())
    case (Miss, Some(eff)) => FreshWrite(it, eff)
    case (FloorDisagreed, Some(eff)) => FreshWrite(it, eff)
    case (AuditedHit, Some(eff)) =>
      var details := WithFreshDeploymentPlane(row.value.details, eff);
      ServedWrite(it, row.value, details, ResidueOnly(eff.concrete, it.plan.id.effectClass), false)
    case (PlainHit, probed) =>
      var concrete := if it.residueProbe && probed.Some? then ResidueOnly(probed.value.concrete, it.plan.id.effectClass)
          else map[];
      ServedWrite(it, row.value, CodePlane(row.value.details), concrete, true)
    case _ => Withholding(it)
  }

  /** The audit stamp and hit count that branch leaves on `stored`, counting hits from the loaded object. */
  function Touched(stored: CacheRow, loaded: CacheRow, it: Item, kind: Kind): CacheRow {
    var peer := Some(if it.plan.Key().surface != "" then it.plan.Key().surface else it.plan.hash);
    match kind
    case AuditedHit => stored.(audit := Some(Passed), peer := peer, hits := loaded.hits + 1)
    case PlainHit => stored.(hits := loaded.hits + 1)
    case Refused(KernelHashCollision) => stored.(audit := Some(Failed), peer := peer)
    case _ => stored
  }

  function LoadedAfter(loaded: map<CacheKey, CacheRow>, it: Item): map<CacheKey, CacheRow> {
    match RowFor(loaded, it)
    case None => loaded
    case Some(row) => loaded[it.plan.Key() := Touched(row, row, it, KindOf(Some(row), it))]
  }

  /** A miss caches a transferable verdict; a hit writes back its stamp and count by column. */
  function CacheAfter(cache: map<CacheKey, CacheRow>, loaded: map<CacheKey, CacheRow>, version: nat,
      it: Item): map<CacheKey, CacheRow>
  {
    var key := it.plan.Key();
    match (RowFor(loaded, it), it.Probed())
    case (None, Some(eff)) =>
      var existing := if key in cache then Some(cache[key]) else None;
      if Cacheable(eff) then cache[key := Refreshed(existing, FreshRow(eff, version))] else cache
    case (Some(row), _) =>
      if key in cache then cache[key := Touched(cache[key], row, it, KindOf(Some(row), it))] else cache
    case _ => cache
  }

  function WithVerdict(db: Db, id: Identity, w: VerdictWrite): Db {
    var existing := if id in db.verdicts then Some(db.verdicts[id]) else None;
    db.(verdicts := db.verdicts[id := Recorded(existing, w)])
  }

  /** Resolve one item and record its verdict. */
  function DbAfter(db: Db, loaded: map<CacheKey, CacheRow>, version: nat, it: Item): Db {
    WithVerdict(db.(cache := CacheAfter(db.cache, loaded, version, it)), it.plan.id, WriteOf(RowFor(loaded, it), it))
  }
}
