/**
 The worker that runs a job against the stores in place. Its methods are proved against the
 specification functions the run-level theorems are about.
 */
module EffectsWorker {
  import opened Common
  import opened EffectCache
  import opened EffectsStage
  import opened EffectsTrust

  /** The item counters of one job. */
  datatype Tally = Tally(hitsKernel: nat, hitsProjection: nat, misses: nat, probesFailed: nat, withheld: nat)
  {
    function Items(): nat {
      hitsKernel + hitsProjection + misses + probesFailed + withheld
    }
  }

  function Counted(t: Tally, e: Entry): Tally {
    match e.kind
    case ProbeFailed => t.(probesFailed := t.probesFailed + 1)
    case Miss => t.(misses := t.misses + 1)
    case FloorDisagreed => t.(misses := t.misses + 1)
    case Refused(_) => t.(withheld := t.withheld + 1)
    case _ =>
      if e.key.scope == Kernel then t.(hitsKernel := t.hitsKernel + 1) else t.(hitsProjection := t.hitsProjection + 1)
  }

  function Tallied(t: Tally, log: seq<Entry>): Tally {
    if log == [] then t else Counted(Tallied(t, log[..|log| - 1]), log[|log| - 1])
  }

  /** The worklist adds up: every item is exactly one of hit, miss, failed probe or withheld. */
  lemma {:induction false} ItemsAddUp(t: Tally, log: seq<Entry>)
    ensures Tallied(t, log).Items() == t.Items() + |log|
  {
    if log != [] {
      ItemsAddUp(t, log[..|log| - 1]);
    }
  }

  class Worker {
    const version: nat
    var cache: map<CacheKey, CacheRow>
    var verdicts: map<Identity, VerdictRow>
    var loaded: map<CacheKey, CacheRow>
    var hitsKernel: nat
    var hitsProjection: nat
    var misses: nat
    var probesFailed: nat
    var withheld: nat
    var verdictsWritten: nat

    constructor (version: nat, db: Db)
      ensures this.version == version && Stores() == db && loaded == map[]
      ensures Counters() == Tally(0, 0, 0, 0, 0) && verdictsWritten == 0
    {
      this.version := version;
      cache, verdicts, loaded := db.cache, db.verdicts, map[];
      hitsKernel, hitsProjection, misses, probesFailed, withheld, verdictsWritten := 0, 0, 0, 0, 0, 0;
    }

    function Stores(): Db
      reads this
    {
      Db(cache, verdicts)
    }

    function Counters(): Tally
      reads this
    {
      Tally(hitsKernel, hitsProjection, misses, probesFailed, withheld)
    }

    /** The current-version row of a key; a row of another version reads as a miss. */
    method FindCachedVerdict(key: CacheKey) returns (row: Option<CacheRow>)
      ensures row.Some? <==> Normalized(key) in cache && cache[Normalized(key)].version == version
      ensures row.Some? ==> row.value == cache[Normalized(key)]
    {
      var norm := Normalized(key);
      if norm in cache && cache[norm].version == version {
        return Some(cache[norm]);
      }
      return None;
    }

    method UpsertCachedVerdict(key: CacheKey, eff: Effect)
      modifies this`cache
      ensures
        var existing := if key in old(cache) then Some(old(cache)[key]) else None;
        cache == old(cache)[key := Refreshed(existing, FreshRow(eff, version))]
    {
      var details := CodePlane(OrNone(eff.Payload()));
      var row := CacheRow(eff.verdict, eff.tier, eff.transcript, details, version, None, None, 0);
      if key in cache {
        // A plain refresh keeps the prior audit.
        row := row.(audit := cache[key].audit, peer := cache[key].peer, hits := cache[key].hits);
      }
      cache := cache[key := row];
    }

    /** Stamp the audit result on the loaded object, flushing its columns to the stored row. */
    method MarkAudited(it: Item, passed: bool)
      requires it.plan.Key() in loaded
      modifies this`cache, this`loaded
      ensures
        var key := it.plan.Key();
        var audit := Some(if passed then Passed else Failed);
        var peer := Some(if key.surface != "" then key.surface else it.plan.hash);
        && loaded == old(loaded)[key := old(loaded)[key].(audit := audit, peer := peer)]
        && cache == if key in old(cache) then old(cache)[key := old(cache)[key].(audit := audit, peer := peer)]
            else old(cache)
    {
      var key := it.plan.Key();
      var audit := Some(if passed then Passed else Failed);
      var peer := Some(if key.surface != "" then key.surface else it.plan.hash);
      loaded := loaded[key := loaded[key].(audit := audit, peer := peer)];
      if key in cache {
        cache := cache[key := cache[key].(audit := audit, peer := peer)];
      }
    }

    method BumpHit(key: CacheKey)
      requires key in loaded
      modifies this`cache, this`loaded
      ensures loaded == old(loaded)[key := old(loaded)[key].(hits := old(loaded)[key].hits + 1)]
      ensures cache == if key in old(cache) then old(cache)[key := old(cache)[key].(hits := old(loaded)[key].hits + 1)]
          else old(cache)
    {
      var hits := loaded[key].hits + 1;
      loaded := loaded[key := loaded[key].(hits := hits)];
      if key in cache {
        cache := cache[key := cache[key].(hits := hits)];
      }
    }

    method RecordEffectVerdict(id: Identity, w: VerdictWrite)
      modifies this`verdicts
      ensures Stores() == WithVerdict(old(Stores()), id, w)
    {
      if id !in verdicts {
        verdicts := verdicts[id := w.row];
        return;
      }
      var stored := verdicts[id];
      var stands := w.row.hash == stored.hash && w.row.verdict == stored.verdict;
      var destination, check := w.row.destination, w.row.currentCheck;
      var residue := Bookkeeping(Dict(stored.residue)) + Dict(w.row.residue);
      var evidence := w.row.evidence;
      if stands {
        destination := if destination.Some? then destination else stored.destination;
        check := if check.Some? then check else stored.currentCheck;
        residue := Dict(stored.residue) + Dict(w.row.residue);
        if w.fromCache {
          evidence := MergeWitness(true, w.row.evidence, stored.evidence);
        }
      }
      verdicts := verdicts[id :=
          w.row.(destination := destination, currentCheck := check, residue := OrNone(residue), evidence := evidence)];
    }

    /** Plan one staged behaviour. */
    method PlanOne(p: Plan, residueProbes: bool, ghost job: Job) returns (it: Item)
      requires job.version == version && job.residueProbes == residueProbes
      ensures it == PlanItem(Stores(), job, p) && (it.hit ==> p.Key() in cache)
    {
      var cached := None;
      if !p.replay {
        cached := FindCachedVerdict(p.Key());
      }
      var needsAudit := cached.Some? && cached.value.audit.None?;
      var probe, attempts := false, 0;
      if residueProbes && cached.Some? && !needsAudit && ResidueObservable(cached.value, p.id.effectClass) {
        if p.id !in verdicts {
          probe := true;
        } else {
          attempts := AttemptsOf(verdicts[p.id].residue);
          probe := verdicts[p.id].destination.None? && attempts < MAX_RESIDUE_ATTEMPTS;
        }
      }
      return Item(p, cached.Some?, needsAudit, probe, attempts);
    }

    /** Plan one more behaviour, keeping the row it hit as a loaded object. */
    method PlanNext(p: Plan, residueProbes: bool, items: seq<Item>, ghost db: Db, ghost job: Job)
        returns (more: seq<Item>)
      requires db == Stores() && job.version == version && job.residueProbes == residueProbes
          && loaded == Loaded(db, items)
      modifies this`loaded
      ensures more == items + [PlanItem(db, job, p)] && loaded == Loaded(db, more)
    {
      var it := PlanOne(p, residueProbes, job);
      LoadedGrows(db, items, it);
      if it.hit {
        loaded := loaded[it.plan.Key() := cache[it.plan.Key()]];
      }
      more := items + [it];
    }

    /** Plan every staged behaviour, keeping the rows it hit as loaded objects. */
    method PlanItems(plans: seq<Plan>, residueProbes: bool) returns (items: seq<Item>)
      modifies this`loaded
      ensures items == Planned(old(Stores()), Job(version, plans, residueProbes))
      ensures loaded == Loaded(old(Stores()), items)
    {
      ghost var db, job := Stores(), Job(version, plans, residueProbes);
      items, loaded := [], map[];
      PlannedNone(db, job);
      for i := 0 to |plans|
        invariant items == Planned(db, job)[..i]
        invariant loaded == Loaded(db, items)
      {
        PlannedNext(db, job, i);
        items := PlanNext(plans[i], residueProbes, items, db, job);
      }
      PlannedAll(db, job);
    }

    method ResolveMiss(it: Item) returns (w: VerdictWrite)
      requires !it.hit
      modifies this`cache, this`misses, this`probesFailed
      ensures w == WriteOf(None, it)
      ensures cache == CacheAfter(old(cache), loaded, version, it)
      ensures Counters() == Counted(old(Counters()), EntryOf(loaded, it))
    {
      var probed := it.Probed();
      if probed.None? {
        probesFailed := probesFailed + 1;
        return Withholding(it);
      }
      misses := misses + 1;
      if Cacheable(probed.value) {
        UpsertCachedVerdict(it.plan.Key(), probed.value);
      }
      return FreshWrite(it, probed.value);
    }

    /** Trust an audited hit: stamp it, count it and lend it this probe's own deployment plane. */
    method ServeAudited(it: Item, seen: Effect) returns (w: VerdictWrite)
      requires it.hit && it.needsAudit && it.plan.Key() in loaded
      requires it.Probed() == Some(seen) && AuditMatches(loaded[it.plan.Key()], seen)
      modifies this`cache, this`loaded, this`hitsKernel, this`hitsProjection
      ensures w == WriteOf(RowFor(old(loaded), it), it)
      ensures cache == CacheAfter(old(cache), old(loaded), version, it)
      ensures loaded == LoadedAfter(old(loaded), it)
      ensures Counters() == Counted(old(Counters()), EntryOf(old(loaded), it))
    {
      var cached := loaded[it.plan.Key()];
      MarkAudited(it, true);
      BumpHit(it.plan.Key());
      CountHit(it);
      return ServedWrite(it, cached, WithFreshDeploymentPlane(cached.details, seen),
          ResidueOnly(seen.concrete, it.plan.id.effectClass), false);
    }

    /** The first re-encounter of a cached key: re-simulate, compare, stamp. */
    method ResolveAudit(it: Item) returns (w: VerdictWrite)
      requires it.hit && it.needsAudit && it.plan.Key() in loaded
      modifies this`cache, this`loaded, this`hitsKernel, this`hitsProjection, this`misses, this`withheld
      ensures w == WriteOf(RowFor(old(loaded), it), it)
      ensures cache == CacheAfter(old(cache), old(loaded), version, it)
      ensures loaded == LoadedAfter(old(loaded), it)
      ensures Counters() == Counted(old(Counters()), EntryOf(old(loaded), it))
    {
      var cached, probed := loaded[it.plan.Key()], it.Probed();
      if probed.None? {
        withheld := withheld + 1;
        return Withholding(it);
      }
      var seen := probed.value;
      var comparable := Comparable(Dict(cached.details)) && Comparable(seen.Payload());
      var agree;
      if comparable {
        agree := VerdictsAgree(cached.verdict, Dict(cached.details), seen.verdict, seen.details);
      } else {
        agree := cached.verdict == seen.verdict
            && Get(Dict(cached.details), REASON_KEY) == Get(seen.Payload(), REASON_KEY);
      }
      if agree {
        w := ServeAudited(it, seen);
      } else if comparable {
        MarkAudited(it, false);
        withheld := withheld + 1;
        w := Withholding(it);
      } else {
        misses := misses + 1;
        w := FreshWrite(it, seen);
      }
    }

    /** Resolve one item under the cache and self-audit rules. */
    method ResolveItem(it: Item) returns (w: VerdictWrite)
      requires it.hit ==> it.plan.Key() in loaded
      modifies this`cache, this`loaded, this`hitsKernel, this`hitsProjection, this`misses, this`probesFailed,
          this`withheld
      ensures w == WriteOf(RowFor(old(loaded), it), it)
      ensures cache == CacheAfter(old(cache), old(loaded), version, it)
      ensures loaded == LoadedAfter(old(loaded), it)
      ensures Counters() == Counted(old(Counters()), EntryOf(old(loaded), it))
    {
      if !it.hit {
        w := ResolveMiss(it);
        return;
      }
      if it.needsAudit {
        w := ResolveAudit(it);
        return;
      }
      var cached, probed := loaded[it.plan.Key()], it.Probed();
      if cached.audit == Some(Failed) {
        withheld := withheld + 1;
        return Withholding(it);
      }
      BumpHit(it.plan.Key());
      CountHit(it);
      var concrete := map[];
      if it.residueProbe && probed.Some? {
        concrete := ResidueOnly(probed.value.concrete, it.plan.id.effectClass);
      }
      return ServedWrite(it, cached, CodePlane(cached.details), concrete, true);
    }

    method CountHit(it: Item)
      modifies this`hitsKernel, this`hitsProjection
      ensures hitsKernel == old(hitsKernel) + (if it.plan.scope == Kernel then 1 else 0)
      ensures hitsProjection == old(hitsProjection) + (if it.plan.scope == Kernel then 0 else 1)
    {
      if it.plan.scope == Kernel {
        hitsKernel := hitsKernel + 1;
      } else {
        hitsProjection := hitsProjection + 1;
      }
    }

    /** Resolve and record every item in order. */
    method WriteVerdicts(items: seq<Item>)
      requires forall it | it in items && it.hit :: it.plan.Key() in loaded
      modifies this
      ensures
        var end := WriteAll(old(Stores()), old(loaded), version, items, []);
        && Stores() == end.0
        && Counters() == Tallied(old(Counters()), end.1)
        && Counters().Items() == old(Counters().Items()) + |items|
      ensures verdictsWritten == old(verdictsWritten) + |items|
    {
      ghost var log: seq<Entry> := [];
      ghost var end := WriteAll(Stores(), loaded, version, items, []);
      for i := 0 to |items|
        invariant forall it | it in items && it.hit :: it.plan.Key() in loaded
        invariant WriteAll(Stores(), loaded, version, items[i..], log) == end
        invariant Counters() == Tallied(old(Counters()), log) && |log| == i
        invariant verdictsWritten == old(verdictsWritten) + i
      {
        var it := items[i];
        assert it in items && items[i..][1..] == items[i + 1..];
        ghost var entry := EntryOf(loaded, it);
        var w := ResolveItem(it);
        RecordEffectVerdict(it.plan.id, w);
        verdictsWritten := verdictsWritten + 1;
        assert (log + [entry])[..i] == log;
        log := log + [entry];
      }
      ItemsAddUp(old(Counters()), log);
    }

    /** A whole job: the stores end where the serial specification says, and its counters account for every item. */
    method Process(plans: seq<Plan>, residueProbes: bool)
      modifies this
      ensures
        var end := RunJob(old(Stores()), Job(version, plans, residueProbes), []);
        && Stores() == end.0
        && Counters() == Tallied(old(Counters()), end.1)
        && Counters().Items() == old(Counters().Items()) + |plans|
    {
      var items := PlanItems(plans, residueProbes);
      PlannedHitsAreLoaded(Stores(), Job(version, plans, residueProbes));
      WriteVerdicts(items);
    }
  }

  lemma PlannedNext(db: Db, job: Job, i: nat)
    requires i < |job.plans|
    ensures Planned(db, job)[..i + 1] == Planned(db, job)[..i] + [PlanItem(db, job, job.plans[i])]
  {}

  lemma PlannedNone(db: Db, job: Job)
    ensures Planned(db, job)[..0] == [] && Loaded(db, []) == map[]
  {}

  lemma PlannedAll(db: Db, job: Job)
    ensures Planned(db, job)[..|job.plans|] == Planned(db, job)
  {}

  lemma LoadedGrows(db: Db, items: seq<Item>, it: Item)
    ensures
      Loaded(db, items + [it])
      == if it.hit && it.plan.Key() in db.cache then Loaded(db, items)[it.plan.Key() := db.cache[it.plan.Key()]]
          else Loaded(db, items)
  {
    forall x ensures x in items + [it] <==> x in items || x == it {}
  }

  lemma PlannedHitsAreLoaded(db: Db, job: Job)
    ensures forall it | it in Planned(db, job) && it.hit :: it.plan.Key() in Loaded(db, Planned(db, job))
  {
    forall it | it in Planned(db, job) && it.hit ensures it.plan.Key() in Loaded(db, Planned(db, job)) {
      var i :| 0 <= i < |job.plans| && Planned(db, job)[i] == it;
    }
  }
}
