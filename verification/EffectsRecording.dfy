/**
 What a job leaves behind for each item: the verdict row, the cached row and the counters, told from the plan, the
 probe's outcome and the cached row alone.
 */
module EffectsRecording {
  import opened Common
  import opened EffectCache
  import opened EffectsStage
  import opened EffectsTrust
  import W = EffectsWorker

  /** The row says this verdict, at this tier and with this transcript, for the code that was planned. */
  predicate Says(row: VerdictRow, it: Item, verdict: Verdict, tier: Tier, transcript: Option<string>) {
    row.hash == Some(it.plan.hash) && row.verdict == verdict && row.tier == tier && row.transcript == transcript
  }

  /** The row withholds a verdict. */
  predicate Withholds(row: VerdictRow, it: Item) {
    Says(row, it, Unknown, Call, None) && row.evidence.None?
  }

  /** A verdict that another deployment of the same code may be served. */
  predicate Transferable(eff: Effect) {
    && eff.tier != Historical && !eff.stateDependent
    && (|| eff.verdict == Proven
        || eff.reason == "no_value_observed" || eff.reason == "no_supply_delta" || eff.reason == "impl_slot_unchanged"
        || eff.reason == "no_authorization_delta_observed" || eff.reason == "no_blast_radius_observed"
        || eff.reason == "bare_sentinel_proves_nothing")
  }

  /** The cached row carries this probe's verdict without anything of the deployment it was made on. */
  ghost predicate Carries(row: CacheRow, eff: Effect) {
    && row.verdict == eff.verdict && row.tier == eff.tier && row.transcript == eff.transcript
    && forall k :: (k in Dict(row.details) <==> k in eff.Payload() && k !in DEPLOYMENT_PLANE_KEYS)
         && (k in Dict(row.details) ==> Dict(row.details)[k] == eff.Payload()[k])
  }

  // ----- one item -----

  /** A miss records what its probe saw. */
  lemma MissRecordsProbe(db: Db, loaded: map<CacheKey, CacheRow>, version: nat, it: Item, eff: Effect)
    requires !it.hit && it.plan.outcome == Some(eff)
    ensures
      var after := DbAfter(db, loaded, version, it);
      it.plan.id in after.verdicts && ProbeRow(after.verdicts[it.plan.id], it, eff)
  {
    assert WriteOf(None, it) == FreshWrite(it, eff);
    FreshIsProbeRow(if it.plan.id in db.verdicts then Some(db.verdicts[it.plan.id]) else None, it, eff);
  }

  /** It caches what the probe saw exactly if that is transferable, and touches no other key. */
  lemma MissCachesTransferable(db: Db, loaded: map<CacheKey, CacheRow>, version: nat, it: Item, eff: Effect)
    requires !it.hit && it.plan.outcome == Some(eff)
    ensures
      var cache, key := DbAfter(db, loaded, version, it).cache, it.plan.Key();
      && (Transferable(eff) ==> key in cache && Carries(cache[key], eff) && cache[key].version == version)
      && (!Transferable(eff) ==> cache == db.cache)
      && (forall k | k != key :: Lookup(cache, k) == Lookup(db.cache, k))
  {}

  function Lookup<K, V>(m: map<K, V>, k: K): Option<V> {
    if k in m then Some(m[k]) else None
  }

  /** The row is this probe's: its verdict and evidence, and every destination, check and residue key it saw. */
  predicate ProbeRow(row: VerdictRow, it: Item, eff: Effect) {
    && Says(row, it, eff.verdict, eff.tier, eff.transcript) && row.evidence == OrNone(eff.Payload())
    && (Get(eff.concrete, DESTINATION_KEY).Some? ==> row.destination == Get(eff.concrete, DESTINATION_KEY))
    && (Get(eff.concrete, CURRENT_CHECK_KEY).Some? ==> row.currentCheck == Get(eff.concrete, CURRENT_CHECK_KEY))
    && forall k | k in eff.concrete && k in RESIDUE_JSON_KEYS && k != ATTEMPTS_KEY ::
         k in Dict(row.residue) && Dict(row.residue)[k] == eff.concrete[k]
  }

  /** A miss whose probe failed withholds, and caches nothing. */
  lemma FailedProbeWithholds(db: Db, loaded: map<CacheKey, CacheRow>, version: nat, it: Item)
    requires !it.hit && it.plan.outcome.None?
    ensures
      var after := DbAfter(db, loaded, version, it);
      it.plan.id in after.verdicts && Withholds(after.verdicts[it.plan.id], it) && after.cache == db.cache
  {}

  /** The cached row after an item that hit it: nothing but the stamp, its peer and the hit count can move. */
  predicate Stamped(before: CacheRow, after: CacheRow, audit: Option<Audit>, hits: nat) {
    after == before.(audit := audit, hits := hits, peer := after.peer)
  }

  /** The first re-encounter: a matching probe has the cached verdict served and stamped. */
  lemma MatchServes(db: Db, loaded: map<CacheKey, CacheRow>, version: nat, it: Item, seen: Effect)
    requires it.hit && it.needsAudit && it.plan.Key() in loaded && it.plan.Key() in db.cache
    requires it.plan.outcome == Some(seen) && AuditMatches(loaded[it.plan.Key()], seen)
    ensures
      var after, key := DbAfter(db, loaded, version, it), it.plan.Key();
      var row, cached := after.verdicts[it.plan.id], loaded[key];
      && Says(row, it, cached.verdict, cached.tier, cached.transcript)
      && Stamped(db.cache[key], after.cache[key], Some(Passed), cached.hits + 1)
  {}

  /** What that probe found about where value goes is kept. */
  lemma MatchDestination(db: Db, loaded: map<CacheKey, CacheRow>, version: nat, it: Item, seen: Effect)
    requires it.hit && it.needsAudit && it.plan.Key() in loaded && it.plan.id.effectClass == ValueOut
    requires it.plan.outcome == Some(seen) && AuditMatches(loaded[it.plan.Key()], seen)
    requires Get(seen.concrete, DESTINATION_KEY).Some?
    ensures
      DbAfter(db, loaded, version, it).verdicts[it.plan.id].destination == Get(seen.concrete, DESTINATION_KEY)
  {}

  /** Its evidence is the cached code plane with the probe's own deployment plane. */
  lemma MatchEvidence(db: Db, loaded: map<CacheKey, CacheRow>, version: nat, it: Item, seen: Effect, k: string)
    requires it.hit && it.needsAudit && it.plan.Key() in loaded
    requires it.plan.outcome == Some(seen) && AuditMatches(loaded[it.plan.Key()], seen)
    ensures
      var row, cached := DbAfter(db, loaded, version, it).verdicts[it.plan.id], loaded[it.plan.Key()];
      Lookup(Dict(row.evidence), k)
      == if k in DEPLOYMENT_PLANE_KEYS then Lookup(seen.Payload(), k) else Lookup(Dict(cached.details), k)
  {
    var cached := loaded[it.plan.Key()];
    var w := WriteOf(RowFor(loaded, it), it);
    assert Dict(w.row.evidence) == Dict(CodePlane(cached.details)) + DeploymentPlane(seen.Payload());
    assert DbAfter(db, loaded, version, it).verdicts[it.plan.id].evidence == w.row.evidence;
  }

  /** A structural disagreement withholds the verdict and fails the key. */
  lemma CollisionWithholds(db: Db, loaded: map<CacheKey, CacheRow>, version: nat, it: Item, seen: Effect)
    requires it.hit && it.needsAudit && it.plan.Key() in loaded && it.plan.Key() in db.cache
    requires it.plan.outcome == Some(seen) && !AuditMatches(loaded[it.plan.Key()], seen)
    requires Comparable(Dict(loaded[it.plan.Key()].details)) && Comparable(seen.Payload())
    ensures
      var after, key := DbAfter(db, loaded, version, it), it.plan.Key();
      && Withholds(after.verdicts[it.plan.id], it)
      && Stamped(db.cache[key], after.cache[key], Some(Failed), db.cache[key].hits)
  {}

  lemma FreshIsProbeRow(existing: Option<VerdictRow>, it: Item, eff: Effect)
    ensures ProbeRow(Recorded(existing, FreshWrite(it, eff)), it, eff)
  {
    if existing.Some? {
      MergeKeyByKey(existing.value, FreshWrite(it, eff));
    }
  }

  /** A disagreement with nothing structural to compare records the probe and leaves the key unaudited. */
  lemma FloorRecordsProbe(db: Db, loaded: map<CacheKey, CacheRow>, version: nat, it: Item, seen: Effect)
    requires it.hit && it.needsAudit && it.plan.Key() in loaded
    requires it.plan.outcome == Some(seen) && !AuditMatches(loaded[it.plan.Key()], seen)
    requires !Comparable(Dict(loaded[it.plan.Key()].details)) || !Comparable(seen.Payload())
    ensures
      var after := DbAfter(db, loaded, version, it);
      ProbeRow(after.verdicts[it.plan.id], it, seen) && after.cache == db.cache
  {
    var row := Some(loaded[it.plan.Key()]);
    assert RowFor(loaded, it) == row && KindOf(row, it) == FloorDisagreed && WriteOf(row, it) == FreshWrite(it, seen);
    FreshIsProbeRow(if it.plan.id in db.verdicts then Some(db.verdicts[it.plan.id]) else None, it, seen);
    HitLeavesCache(db.cache, loaded, version, it);
  }

  /** A hit that is neither served nor failed leaves the cache as it is. */
  lemma HitLeavesCache(cache: map<CacheKey, CacheRow>, loaded: map<CacheKey, CacheRow>, version: nat, it: Item)
    requires it.hit && it.plan.Key() in loaded
    requires
      var kind := KindOf(Some(loaded[it.plan.Key()]), it);
      kind != AuditedHit && kind != PlainHit && kind != Refused(KernelHashCollision)
    ensures CacheAfter(cache, loaded, version, it) == cache
  {
    if it.plan.Key() in cache {
      assert CacheAfter(cache, loaded, version, it) == cache[it.plan.Key() := cache[it.plan.Key()]];
    }
  }

  /** An audit without a probe, or a key that failed one, withholds and leaves the cache alone. */
  lemma UntrustedHitWithholds(db: Db, loaded: map<CacheKey, CacheRow>, version: nat, it: Item)
    requires it.hit && it.plan.Key() in loaded
    requires if it.needsAudit then it.plan.outcome.None? else loaded[it.plan.Key()].audit == Some(Failed)
    ensures
      var after := DbAfter(db, loaded, version, it);
      Withholds(after.verdicts[it.plan.id], it) && after.cache == db.cache
  {
    HitLeavesCache(db.cache, loaded, version, it);
  }

  /** An audited hit is served as cached, and counted. */
  lemma PlainHitServes(db: Db, loaded: map<CacheKey, CacheRow>, version: nat, it: Item)
    requires it.hit && !it.needsAudit && it.plan.Key() in loaded && it.plan.Key() in db.cache
    requires loaded[it.plan.Key()].audit != Some(Failed)
    ensures
      var after, key := DbAfter(db, loaded, version, it), it.plan.Key();
      var row, cached := after.verdicts[it.plan.id], loaded[key];
      && Says(row, it, cached.verdict, cached.tier, cached.transcript)
      && Stamped(db.cache[key], after.cache[key], db.cache[key].audit, cached.hits + 1)
  {}

  /** Its evidence has every code-plane key of the cached row. */
  lemma PlainHitEvidence(db: Db, loaded: map<CacheKey, CacheRow>, version: nat, it: Item, k: string)
    requires it.hit && !it.needsAudit && it.plan.Key() in loaded && loaded[it.plan.Key()].audit != Some(Failed)
    requires k in Dict(loaded[it.plan.Key()].details) && k !in DEPLOYMENT_PLANE_KEYS
    ensures
      var row, cached := DbAfter(db, loaded, version, it).verdicts[it.plan.id], loaded[it.plan.Key()];
      Lookup(Dict(row.evidence), k) == Some(Dict(cached.details)[k])
  {
    var w := WriteOf(RowFor(loaded, it), it);
    assert Lookup(Dict(w.row.evidence), k) == Some(Dict(loaded[it.plan.Key()].details)[k]);
    if it.plan.id in db.verdicts {
      MergeKeyByKey(db.verdicts[it.plan.id], w);
    }
  }

  /** What its residue probe found about the destination is kept. */
  lemma PlainHitDestination(db: Db, loaded: map<CacheKey, CacheRow>, version: nat, it: Item, seen: Effect)
    requires it.hit && !it.needsAudit && it.plan.Key() in loaded && loaded[it.plan.Key()].audit != Some(Failed)
    requires it.residueProbe && it.plan.scope == Kernel && it.plan.id.effectClass == ValueOut
    requires it.plan.outcome == Some(seen) && Get(seen.concrete, DESTINATION_KEY).Some?
    ensures
      DbAfter(db, loaded, version, it).verdicts[it.plan.id].destination == Get(seen.concrete, DESTINATION_KEY)
  {}

  /** If neither the probe nor the cached row said unknown, an unknown verdict has one of four reasons. */
  lemma UnknownHasAReason(db: Db, loaded: map<CacheKey, CacheRow>, version: nat, it: Item)
    requires it.hit ==> it.plan.Key() in loaded && loaded[it.plan.Key()].verdict != Unknown
    requires it.plan.outcome.Some? ==> it.plan.outcome.value.verdict != Unknown
    requires DbAfter(db, loaded, version, it).verdicts[it.plan.id].verdict == Unknown
    ensures
      || (!it.hit && it.plan.outcome.None?)
      || (it.hit && it.needsAudit && it.plan.outcome.None?)
      || (&& it.hit && it.needsAudit && it.plan.outcome.Some?
          && !AuditMatches(loaded[it.plan.Key()], it.plan.outcome.value))
      || (it.hit && !it.needsAudit && loaded[it.plan.Key()].audit == Some(Failed))
  {}

  // ----- the rules an item rests on -----

  /** A match, key by key: the verdicts agree, and so does every structural key, or the reason where there is none. */
  lemma MatchKeyByKey(row: CacheRow, seen: Effect)
    ensures
      AuditMatches(row, seen) <==>
        && row.verdict == seen.verdict
        && if Comparable(Dict(row.details)) && Comparable(seen.Payload())
           then forall k |
             k in ["latch_flip", "gate_mutation", "upgradeable", "supply_delta_sign", "destination_shape"] ::
                  Get(Dict(row.details), k) == Get(seen.details, k)
           else Get(Dict(row.details), REASON_KEY) == Get(seen.Payload(), REASON_KEY)
  {
    var a, b := KernelSignature(row.verdict, Dict(row.details)), KernelSignature(seen.verdict, seen.details);
    forall k | k in KERNEL_SIGNATURE_KEYS && a == b ensures Get(Dict(row.details), k) == Get(seen.details, k) {
      var i :| 0 <= i < |KERNEL_SIGNATURE_KEYS| && KERNEL_SIGNATURE_KEYS[i] == k;
      assert a.1[i] == b.1[i];
    }
    if row.verdict == seen.verdict
       && forall k | k in KERNEL_SIGNATURE_KEYS :: Get(Dict(row.details), k) == Get(seen.details, k) {
      assert forall i | 0 <= i < |KERNEL_SIGNATURE_KEYS| :: KERNEL_SIGNATURE_KEYS[i] in KERNEL_SIGNATURE_KEYS;
      assert a.1 == b.1;
    }
  }

  /** The merge, column by column: what is written wins, and what is stored survives while code and verdict stand. */
  lemma MergeKeyByKey(stored: VerdictRow, w: VerdictWrite)
    ensures
      var row, stands := Recorded(Some(stored), w), w.row.hash == stored.hash && w.row.verdict == stored.verdict;
      && (w.row.destination.Some? ==> row.destination == w.row.destination)
      && (w.row.destination.None? ==> row.destination == if stands then stored.destination else None)
      && (w.row.currentCheck.Some? ==> row.currentCheck == w.row.currentCheck)
      && (w.row.currentCheck.None? ==> row.currentCheck == if stands then stored.currentCheck else None)
      && (forall k | k in Dict(w.row.residue) :: Lookup(Dict(row.residue), k) == Some(Dict(w.row.residue)[k]))
      && (forall k | k !in Dict(w.row.residue) ::
            Lookup(Dict(row.residue), k)
            == if stands || k == ATTEMPTS_KEY then Lookup(Dict(stored.residue), k) else None)
      && (!w.fromCache || !stands ==> row.evidence == w.row.evidence)
      && (w.fromCache && stands && Dict(w.row.evidence) == map[] ==> row.evidence == stored.evidence)
      && (w.fromCache && stands && Dict(w.row.evidence) != map[] ==>
            && (forall k | k in Dict(w.row.evidence) :: Lookup(Dict(row.evidence), k) == Some(Dict(w.row.evidence)[k]))
            && (forall k | k !in Dict(w.row.evidence) ::
                  Lookup(Dict(row.evidence), k)
                  == if k in DEPLOYMENT_PLANE_KEYS then Lookup(Dict(stored.evidence), k) else None))
  {}

  /** A replayed plan is always probed, and a plain hit is only probed for its residue. */
  lemma WhatIsProbed(db: Db, job: Job, p: Plan)
    ensures
      var it := PlanItem(db, job, p);
      && (p.replay || p.Key() !in db.cache || db.cache[p.Key()].version != job.version ==>
            !it.hit && it.Probed() == p.outcome)
      && (!p.replay && p.Key() in db.cache && db.cache[p.Key()].version == job.version ==>
            && it.hit && (it.needsAudit <==> db.cache[p.Key()].audit.None?)
            && (it.needsAudit ==> it.Probed() == p.outcome)
            && (!it.needsAudit ==> it.Probed() == if it.residueProbe && p.scope == Kernel then p.outcome else None))
  {}

  /** Which hits are flagged: audited proofs of value leaving whose row lacks a destination and has attempts left. */
  lemma WhatIsFlagged(db: Db, job: Job, p: Plan)
    ensures
      var it := PlanItem(db, job, p);
      it.residueProbe <==>
        && job.residueProbes && it.hit && db.cache[p.Key()].audit.Some? && p.id.effectClass == ValueOut
        && db.cache[p.Key()].verdict == Proven
        && Get(Dict(db.cache[p.Key()].details), "destination_shape") != Some(Text("caller_arbitrary"))
        && (p.id in db.verdicts ==> db.verdicts[p.id].destination.None? && AttemptsOf(db.verdicts[p.id].residue) < 2)
  {}

  // ----- a whole job -----

  /** The stores and the loaded objects when item `i` is written. */
  function StateAt(db: Db, loaded: map<CacheKey, CacheRow>, version: nat, items: seq<Item>, i: nat)
    : (Db, map<CacheKey, CacheRow>)
    requires i <= |items|
    decreases i
  {
    if i == 0 then (db, loaded)
    else StateAt(DbAfter(db, loaded, version, items[0]), LoadedAfter(loaded, items[0]), version, items[1..], i - 1)
  }

  lemma {:induction false} LaterItemsLeaveRow(
    db: Db, loaded: map<CacheKey, CacheRow>, version: nat, items: seq<Item>, log: seq<Entry>, id: Identity)
    requires forall it | it in items :: it.plan.id != id
    ensures Lookup(WriteAll(db, loaded, version, items, log).0.verdicts, id) == Lookup(db.verdicts, id)
    decreases |items|
  {
    if items != [] {
      assert items[0] in items;
      LaterItemsLeaveRow(DbAfter(db, loaded, version, items[0]), LoadedAfter(loaded, items[0]), version, items[1..],
                         log + [EntryOf(loaded, items[0])], id);
    }
  }

  /** The last item of an identity decides its row. */
  lemma {:induction false} LastItemDecides(
    db: Db, loaded: map<CacheKey, CacheRow>, version: nat, items: seq<Item>, log: seq<Entry>, i: nat)
    requires i < |items| && forall j | i < j < |items| :: items[j].plan.id != items[i].plan.id
    ensures
      var at := StateAt(db, loaded, version, items, i);
      Lookup(WriteAll(db, loaded, version, items, log).0.verdicts, items[i].plan.id)
      == Lookup(DbAfter(at.0, at.1, version, items[i]).verdicts, items[i].plan.id)
    decreases i
  {
    var after, loaded' := DbAfter(db, loaded, version, items[0]), LoadedAfter(loaded, items[0]);
    var longer := log + [EntryOf(loaded, items[0])];
    if i == 0 {
      forall it | it in items[1..] ensures it.plan.id != items[0].plan.id {
        var j :| 0 <= j < |items[1..]| && items[1..][j] == it;
        assert items[j + 1] == it;
      }
      LaterItemsLeaveRow(after, loaded', version, items[1..], longer, items[0].plan.id);
    } else {
      assert forall j | i - 1 < j < |items[1..]| :: items[1..][j] == items[j + 1];
      LastItemDecides(after, loaded', version, items[1..], longer, i - 1);
    }
  }

  /**
   End to end: a plan that no cached row of the job's version answers leaves its deployment's row with exactly what
   its probe saw, whatever the rest of the job does.
   */
  lemma MissedPlanIsRecorded(db: Db, job: Job, log: seq<Entry>, i: nat, eff: Effect)
    requires i < |job.plans| && job.plans[i].outcome == Some(eff)
    requires forall j | i < j < |job.plans| :: job.plans[j].id != job.plans[i].id
    requires
      var p := job.plans[i];
      p.replay || p.Key() !in db.cache || db.cache[p.Key()].version != job.version
    ensures
      var verdicts, p := RunJob(db, job, log).0.verdicts, job.plans[i];
      p.id in verdicts && ProbeRow(verdicts[p.id], PlanItem(db, job, p), eff)
  {
    var items := Planned(db, job);
    var loaded := Loaded(db, items);
    var at := StateAt(db, loaded, job.version, items, i);
    WhatIsProbed(db, job, job.plans[i]);
    LastItemDecides(db, loaded, job.version, items, log, i);
    MissRecordsProbe(at.0, at.1, job.version, items[i], eff);
  }

  /** End to end: a flagged hit whose probe finds the destination stores it. */
  lemma ReProbeFillsDestination(db: Db, job: Job, log: seq<Entry>, seen: Effect)
    requires |job.plans| == 1 && job.plans[0].outcome == Some(seen) && job.plans[0].scope == Kernel
    requires PlanItem(db, job, job.plans[0]).residueProbe && Get(seen.concrete, DESTINATION_KEY).Some?
    requires job.plans[0].Key() in db.cache && db.cache[job.plans[0].Key()].audit == Some(Passed)
    ensures
      var verdicts, id := RunJob(db, job, log).0.verdicts, job.plans[0].id;
      && id in verdicts && verdicts[id].destination == Get(seen.concrete, DESTINATION_KEY)
      && verdicts[id].verdict == db.cache[job.plans[0].Key()].verdict
  {
    var it := PlanItem(db, job, job.plans[0]);
    var loaded := Loaded(db, [it]);
    WhatIsFlagged(db, job, job.plans[0]);
    OneItemJob(db, job, log);
    assert it in [it] && it.plan.Key() in loaded && loaded[it.plan.Key()] == db.cache[it.plan.Key()];
    PlainHitServes(db, loaded, job.version, it);
    PlainHitDestination(db, loaded, job.version, it, seen);
  }

  // ----- runs -----

  /** Every cached row was cached by a miss on its key whose probe was transferable. */
  ghost predicate CacheExplained(cache: map<CacheKey, CacheRow>, log: seq<Entry>) {
    forall key | key in cache :: CachedBy(log, key, cache[key])
  }

  ghost predicate CachedBy(log: seq<Entry>, key: CacheKey, row: CacheRow) {
    exists e | e in log ::
      e.key == key && e.kind == Miss && e.seen.Some? && Transferable(e.seen.value) && Carries(row, e.seen.value)
  }

  lemma CachedByGrows(log: seq<Entry>, e: Entry, key: CacheKey, row: CacheRow, after: CacheRow)
    requires CachedBy(log, key, row)
    requires after == row.(audit := after.audit, peer := after.peer, hits := after.hits, version := after.version)
    ensures CachedBy(log + [e], key, after)
  {
    var m :| m in log && m.key == key && m.kind == Miss && m.seen.Some? && Transferable(m.seen.value)
      && Carries(row, m.seen.value);
    assert m in log + [e];
  }

  lemma WriteKeepsExplained(db: Db, loaded: map<CacheKey, CacheRow>, version: nat, it: Item, log: seq<Entry>)
    requires CacheExplained(db.cache, log)
    ensures CacheExplained(DbAfter(db, loaded, version, it).cache, log + [EntryOf(loaded, it)])
  {
    var e := EntryOf(loaded, it);
    var cache := CacheAfter(db.cache, loaded, version, it);
    forall key | key in cache ensures CachedBy(log + [e], key, cache[key]) {
      if key != it.plan.Key() {
        OtherKeysKept(db.cache, loaded, version, it, key);
        CachedByGrows(log, e, key, db.cache[key], cache[key]);
      } else if e.kind == Miss && Transferable(e.seen.value) {
        assert e in log + [e];
      } else {
        CachedByGrows(log, e, key, db.cache[key], cache[key]);
      }
    }
  }

  lemma {:induction false} WriteAllKeepsExplained(
    db: Db, loaded: map<CacheKey, CacheRow>, version: nat, items: seq<Item>, log: seq<Entry>)
    requires CacheExplained(db.cache, log)
    ensures
      var end := WriteAll(db, loaded, version, items, log);
      CacheExplained(end.0.cache, end.1)
    decreases |items|
  {
    if items != [] {
      WriteKeepsExplained(db, loaded, version, items[0], log);
      WriteAllKeepsExplained(DbAfter(db, loaded, version, items[0]), LoadedAfter(loaded, items[0]), version, items[1..],
                             log + [EntryOf(loaded, items[0])]);
    }
  }

  /** Over any run of jobs, the shared cache only ever holds the code plane of transferable probes of its keys. */
  lemma {:induction false} CacheHoldsTransferableProbes(db: Db, jobs: seq<Job>, log: seq<Entry>)
    requires CacheExplained(db.cache, log)
    ensures
      var end := RunJobs(db, jobs, log);
      CacheExplained(end.0.cache, end.1)
    decreases |jobs|
  {
    if jobs != [] {
      var items := Planned(db, jobs[0]);
      WriteAllKeepsExplained(db, Loaded(db, items), jobs[0].version, items, log);
      var first := RunJob(db, jobs[0], log);
      CacheHoldsTransferableProbes(first.0, jobs[1..], first.1);
    }
  }

  // ----- counters -----

  function CountIf(log: seq<Entry>, p: Entry -> bool): nat {
    if log == [] then 0 else CountIf(log[..|log| - 1], p) + if p(log[|log| - 1]) then 1 else 0
  }

  /** Each counter counts its own kind of entry. */
  lemma {:induction false} CountersCountKinds(t: W.Tally, log: seq<Entry>)
    ensures
      var end := W.Tallied(t, log);
      && end.misses == t.misses + CountIf(log, (e: Entry) => e.kind == Miss || e.kind == FloorDisagreed)
      && end.probesFailed == t.probesFailed + CountIf(log, (e: Entry) => e.kind == ProbeFailed)
      && end.withheld == t.withheld + CountIf(log, (e: Entry) => e.kind.Refused?)
      && end.hitsKernel == t.hitsKernel + CountIf(log, (e: Entry) => ServedFromCache(e) && e.key.scope == Kernel)
      && end.hitsProjection
         == t.hitsProjection + CountIf(log, (e: Entry) => ServedFromCache(e) && e.key.scope == Projection)
  {
    if log != [] {
      CountersCountKinds(t, log[..|log| - 1]);
      var s := log[|log| - 1].key.scope;
      assert s == Kernel || s == Projection;
    }
  }
}
