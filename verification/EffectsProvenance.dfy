/**
 Where stored observations come from. Jobs interleave freely, one item write at a time, and the set of
 probes that ran is kept beside the stores; every deployment-plane value a deployment's row holds is
 traced to a probe of that same deployment.
 */
module EffectsProvenance {
  import opened Common
  import opened EffectCache
  import opened EffectsStage

  /** A recipe run against one deployment under one behaviour hash. */
  datatype Probe = Probe(id: Identity, hash: string, eff: Effect)

  /** `p` observed this deployment under the row's own hash. */
  predicate SameCode(p: Probe, id: Identity, row: VerdictRow) {
    p.id == id && row.hash == Some(p.hash)
  }

  /** ... and reached the row's own verdict. */
  predicate SameFacts(p: Probe, id: Identity, row: VerdictRow) {
    SameCode(p, id, row) && row.verdict == p.eff.verdict
  }

  ghost predicate EvidenceSourced(probes: set<Probe>, id: Identity, row: VerdictRow) {
    forall k | k in Dict(row.evidence) && k in DEPLOYMENT_PLANE_KEYS ::
      exists p | p in probes :: SameFacts(p, id, row) && k in p.eff.Payload()
          && p.eff.Payload()[k] == Dict(row.evidence)[k]
  }

  ghost predicate ResidueSourced(probes: set<Probe>, id: Identity, row: VerdictRow) {
    forall k | k in Dict(row.residue) && k !in BOOKKEEPING_KEYS ::
      exists p | p in probes :: SameFacts(p, id, row) && k in p.eff.concrete
          && p.eff.concrete[k] == Dict(row.residue)[k]
  }

  ghost predicate DestinationSourced(probes: set<Probe>, id: Identity, row: VerdictRow) {
    row.destination.Some? ==>
      exists p | p in probes :: SameCode(p, id, row) && Get(p.eff.concrete, DESTINATION_KEY) == row.destination
  }

  ghost predicate CheckSourced(probes: set<Probe>, id: Identity, row: VerdictRow) {
    row.currentCheck.Some? ==>
      exists p | p in probes :: SameFacts(p, id, row) && Get(p.eff.concrete, CURRENT_CHECK_KEY) == row.currentCheck
  }

  ghost predicate Sourced(probes: set<Probe>, id: Identity, row: VerdictRow) {
    && EvidenceSourced(probes, id, row)
    && ResidueSourced(probes, id, row)
    && DestinationSourced(probes, id, row)
    && CheckSourced(probes, id, row)
  }

  predicate NoDeploymentKeys(details: Option<Details>) {
    Dict(details).Keys !! DEPLOYMENT_PLANE_KEYS
  }

  /** The merge rules never attribute a value to a probe of other code, another verdict or another deployment. */
  lemma RecordedIsSourced(probes: set<Probe>, id: Identity, existing: Option<VerdictRow>, w: VerdictWrite)
    requires existing.Some? ==> Sourced(probes, id, existing.value)
    requires Sourced(probes, id, w.row)
    ensures Sourced(probes, id, Recorded(existing, w))
  {
    if existing.Some? {
      MergedPartsAreSourced(probes, id, existing.value, w);
    }
  }

  lemma MergedPartsAreSourced(probes: set<Probe>, id: Identity, stored: VerdictRow, w: VerdictWrite)
    requires Sourced(probes, id, stored) && Sourced(probes, id, w.row)
    ensures Sourced(probes, id, Recorded(Some(stored), w))
  {
    MergedEvidenceIsSourced(probes, id, stored, w);
    MergedResidueIsSourced(probes, id, stored, w);
    MergedColumnsAreSourced(probes, id, stored, w);
  }

  lemma MergedEvidenceIsSourced(probes: set<Probe>, id: Identity, stored: VerdictRow, w: VerdictWrite)
    requires EvidenceSourced(probes, id, stored) && EvidenceSourced(probes, id, w.row)
    ensures EvidenceSourced(probes, id, Recorded(Some(stored), w))
  {
    var row := Recorded(Some(stored), w);
    forall k | k in Dict(row.evidence) && k in DEPLOYMENT_PLANE_KEYS
      ensures exists p | p in probes ::
        SameFacts(p, id, row) && k in p.eff.Payload() && p.eff.Payload()[k] == Dict(row.evidence)[k]
    {
      var source := if k in Dict(w.row.evidence) && Dict(w.row.evidence)[k] == Dict(row.evidence)[k] then w.row
          else stored;
      assert k in Dict(source.evidence) && Dict(source.evidence)[k] == Dict(row.evidence)[k];
      var p :| p in probes && SameFacts(p, id, source) && k in p.eff.Payload()
          && p.eff.Payload()[k] == Dict(source.evidence)[k];
      assert SameFacts(p, id, row);
    }
  }

  lemma MergedResidueIsSourced(probes: set<Probe>, id: Identity, stored: VerdictRow, w: VerdictWrite)
    requires ResidueSourced(probes, id, stored) && ResidueSourced(probes, id, w.row)
    ensures ResidueSourced(probes, id, Recorded(Some(stored), w))
  {
    var row := Recorded(Some(stored), w);
    forall k | k in Dict(row.residue) && k !in BOOKKEEPING_KEYS
      ensures exists p | p in probes ::
        SameFacts(p, id, row) && k in p.eff.concrete && p.eff.concrete[k] == Dict(row.residue)[k]
    {
      var source := if k in Dict(w.row.residue) then w.row else stored;
      var p :| p in probes && SameFacts(p, id, source) && k in p.eff.concrete
          && p.eff.concrete[k] == Dict(source.residue)[k];
      assert SameFacts(p, id, row);
    }
  }

  lemma MergedColumnsAreSourced(probes: set<Probe>, id: Identity, stored: VerdictRow, w: VerdictWrite)
    requires DestinationSourced(probes, id, stored) && DestinationSourced(probes, id, w.row)
    requires CheckSourced(probes, id, stored) && CheckSourced(probes, id, w.row)
    ensures DestinationSourced(probes, id, Recorded(Some(stored), w))
        && CheckSourced(probes, id, Recorded(Some(stored), w))
  {
    var row := Recorded(Some(stored), w);
    if row.destination.Some? {
      var source := if w.row.destination.Some? then w.row else stored;
      var p :| p in probes && SameCode(p, id, source) && Get(p.eff.concrete, DESTINATION_KEY) == source.destination;
      assert SameCode(p, id, row);
    }
    if row.currentCheck.Some? {
      var source := if w.row.currentCheck.Some? then w.row else stored;
      var p :| p in probes && SameFacts(p, id, source) && Get(p.eff.concrete, CURRENT_CHECK_KEY) == source.currentCheck;
      assert SameFacts(p, id, row);
    }
  }

  function ProbeOf(it: Item): (p: Probe)
    requires it.Probed().Some?
  {
    Probe(it.plan.id, it.plan.hash, it.Probed().value)
  }

  /** An item's probe, if it yielded anything, is on record. */
  predicate ProbeRecorded(probes: set<Probe>, it: Item) {
    it.Probed().Some? ==> ProbeOf(it) in probes
  }

  lemma FreshWriteIsSourced(probes: set<Probe>, it: Item)
    requires it.Probed().Some? && ProbeOf(it) in probes
    ensures Sourced(probes, it.plan.id, FreshWrite(it, it.Probed().value).row)
  {
    assert SameFacts(ProbeOf(it), it.plan.id, FreshWrite(it, it.Probed().value).row);
  }

  /** A served row carries no residue but the destination, and only the deployment plane it is given. */
  lemma ServedWriteIsSourced(
    probes: set<Probe>, it: Item, row: CacheRow, details: Option<Details>, concrete: Details, fromCache: bool)
    requires concrete == map[]
        || (it.Probed().Some? && concrete == ResidueOnly(it.Probed().value.concrete, it.plan.id.effectClass))
    requires it.Probed().Some? ==> ProbeOf(it) in probes
    requires NoDeploymentKeys(details) || (it.Probed().Some? && row.verdict == it.Probed().value.verdict
                                           && DeploymentPlane(Dict(details))
                                               == DeploymentPlane(it.Probed().value.Payload()))
    ensures Sourced(probes, it.plan.id, ServedWrite(it, row, details, concrete, fromCache).row)
  {
    var w := ServedWrite(it, row, details, concrete, fromCache);
    if it.Probed().Some? {
      var p := ProbeOf(it);
      assert SameCode(p, it.plan.id, w.row);
      forall k | k in Dict(w.row.evidence) && k in DEPLOYMENT_PLANE_KEYS
        ensures SameFacts(p, it.plan.id, w.row) && k in p.eff.Payload() && p.eff.Payload()[k] == Dict(w.row.evidence)[k]
      {
        assert k in DeploymentPlane(Dict(details)) && DeploymentPlane(Dict(details))[k] == Dict(details)[k];
        assert k in DeploymentPlane(p.eff.Payload());
      }
    }
  }

  ghost predicate GoodWrite(probes: set<Probe>, id: Identity, w: VerdictWrite) {
    Sourced(probes, id, w.row) && (w.fromCache ==> NoDeploymentKeys(w.row.evidence))
  }

  lemma AuditedWriteIsSourced(probes: set<Probe>, it: Item, row: CacheRow)
    requires it.Probed().Some? && ProbeOf(it) in probes && AuditMatches(row, it.Probed().value)
    ensures
      var seen := it.Probed().value;
      var concrete := ResidueOnly(seen.concrete, it.plan.id.effectClass);
      GoodWrite(probes, it.plan.id, ServedWrite(it, row, WithFreshDeploymentPlane(row.details, seen), concrete, false))
  {
    var seen := it.Probed().value;
    var merged := WithFreshDeploymentPlane(row.details, seen);
    assert DeploymentPlane(Dict(merged)) == DeploymentPlane(seen.Payload());
    ServedWriteIsSourced(probes, it, row, merged, ResidueOnly(seen.concrete, it.plan.id.effectClass), false);
  }

  lemma PlainHitWriteIsSourced(probes: set<Probe>, it: Item, row: CacheRow, concrete: Details)
    requires ProbeRecorded(probes, it)
    requires concrete == map[]
        || (it.Probed().Some? && concrete == ResidueOnly(it.Probed().value.concrete, it.plan.id.effectClass))
    ensures GoodWrite(probes, it.plan.id, ServedWrite(it, row, CodePlane(row.details), concrete, true))
  {
    ServedWriteIsSourced(probes, it, row, CodePlane(row.details), concrete, true);
  }

  lemma WithholdingIsSourced(probes: set<Probe>, it: Item)
    ensures GoodWrite(probes, it.plan.id, Withholding(it))
  {}

  /** Whatever branch resolves the item, what it writes was seen by this deployment's own probe. */
  lemma ResolvedWriteIsSourced(probes: set<Probe>, row: Option<CacheRow>, it: Item)
    requires ProbeRecorded(probes, it)
    ensures GoodWrite(probes, it.plan.id, WriteOf(row, it))
  {
    match KindOf(row, it) {
      case Miss => FreshWriteIsSourced(probes, it);
      case FloorDisagreed => FreshWriteIsSourced(probes, it);
      case AuditedHit => AuditedWriteIsSourced(probes, it, row.value);
      case PlainHit =>
        var concrete := if it.residueProbe && it.Probed().Some?
            then ResidueOnly(it.Probed().value.concrete, it.plan.id.effectClass) else map[];
        PlainHitWriteIsSourced(probes, it, row.value, concrete);
      case _ => WithholdingIsSourced(probes, it);
    }
  }

  datatype Open = Open(version: nat, items: seq<Item>, loaded: map<CacheKey, CacheRow>)

  /** The stores, the jobs between planning and their last write, and every probe that ran. */
  datatype Sys = Sys(db: Db, open: map<nat, Open>, probes: set<Probe>)

  datatype Event = Start(id: nat, job: Job) | Write(id: nat)

  function Step(s: Sys, e: Event): Sys {
    match e
    case Start(id, job) =>
      if id in s.open then s else
      var items := Planned(s.db, job);
      Sys(s.db, s.open[id := Open(job.version, items, Loaded(s.db, items))],
          s.probes + set it | it in items && it.Probed().Some? :: ProbeOf(it))
    case Write(id) =>
      if id !in s.open || s.open[id].items == [] then s else
      var o := s.open[id];
      var it := o.items[0];
      s.(db := DbAfter(s.db, o.loaded, o.version, it),
         open := s.open[id := o.(items := o.items[1..], loaded := LoadedAfter(o.loaded, it))])
  }

  function Exec(s: Sys, run: seq<Event>): Sys
    decreases |run|
  {
    if run == [] then s else Exec(Step(s, run[0]), run[1..])
  }

  ghost predicate VerdictsSourced(s: Sys) {
    forall id | id in s.db.verdicts :: Sourced(s.probes, id, s.db.verdicts[id])
  }

  predicate CacheClean(s: Sys) {
    forall key | key in s.db.cache :: NoDeploymentKeys(s.db.cache[key].details)
  }

  predicate OpenItemsRecorded(s: Sys) {
    forall id | id in s.open :: forall it | it in s.open[id].items :: ProbeRecorded(s.probes, it)
  }

  ghost predicate Inv(s: Sys) {
    VerdictsSourced(s) && CacheClean(s) && OpenItemsRecorded(s)
  }

  lemma StartKeepsInv(s: Sys, id: nat, job: Job)
    requires Inv(s)
    ensures Inv(Step(s, Start(id, job)))
  {
    if id !in s.open {
      var t := Step(s, Start(id, job));
      var items := t.open[id].items;
      assert s.probes <= t.probes;
      forall it | it in items ensures ProbeRecorded(t.probes, it) {}
      forall d | d in t.db.verdicts ensures Sourced(t.probes, d, t.db.verdicts[d]) {
        MoreProbes(s.probes, t.probes, d, s.db.verdicts[d]);
      }
    }
  }

  lemma MoreProbes(few: set<Probe>, many: set<Probe>, id: Identity, row: VerdictRow)
    requires few <= many && Sourced(few, id, row)
    ensures Sourced(many, id, row)
  {}

  lemma WriteKeepsCacheClean(cache: map<CacheKey, CacheRow>, loaded: map<CacheKey, CacheRow>, version: nat, it: Item)
    requires forall key | key in cache :: NoDeploymentKeys(cache[key].details)
    ensures
      var after := CacheAfter(cache, loaded, version, it);
      forall key | key in after :: NoDeploymentKeys(after[key].details)
  {}

  lemma WriteKeepsInv(s: Sys, id: nat)
    requires Inv(s)
    ensures Inv(Step(s, Write(id)))
  {
    if id in s.open && s.open[id].items != [] {
      var o := s.open[id];
      var it := o.items[0];
      assert it in o.items;
      var w := WriteOf(RowFor(o.loaded, it), it);
      ResolvedWriteIsSourced(s.probes, RowFor(o.loaded, it), it);
      WriteKeepsCacheClean(s.db.cache, o.loaded, o.version, it);
      var existing := if it.plan.id in s.db.verdicts then Some(s.db.verdicts[it.plan.id]) else None;
      RecordedIsSourced(s.probes, it.plan.id, existing, w);
    }
  }

  /**
   In every interleaving of jobs, every deployment-plane witness key, residue key, destination and current
   check stored for a deployment was observed by a probe of that deployment under the row's current code
   (and verdict, except for the destination), and no cache row carries a deployment-plane key.
   */
  lemma {:induction false} StoredObservationsAreOwn(s: Sys, run: seq<Event>)
    requires Inv(s)
    ensures Inv(Exec(s, run))
    decreases |run|
  {
    if run != [] {
      match run[0] {
        case Start(id, job) => StartKeepsInv(s, id, job);
        case Write(id) => WriteKeepsInv(s, id);
      }
      StoredObservationsAreOwn(Step(s, run[0]), run[1..]);
    }
  }
}
