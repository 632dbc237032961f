/**
 Serial jobs: which cached verdicts are served without re-simulation, and why they may be trusted.
 A run keeps a log with one entry per written item.
 */
module EffectsTrust {
  import opened Common
  import opened EffectCache
  import opened EffectsStage
  import P = EffectsProvenance

  /** A written item: how it resolved, the loaded row it read and what its probe saw. */
  datatype Entry = Entry(key: CacheKey, kind: Kind, row: Option<CacheRow>, seen: Option<Effect>)

  function EntryOf(loaded: map<CacheKey, CacheRow>, it: Item): Entry {
    var row := RowFor(loaded, it);
    Entry(it.plan.Key(), KindOf(row, it), row, it.Probed())
  }

  function WriteAll(db: Db, loaded: map<CacheKey, CacheRow>, version: nat, items: seq<Item>, log: seq<Entry>): (Db,
      seq<Entry>)
    decreases |items|
  {
    if items == [] then (db, log) else
    WriteAll(DbAfter(db, loaded, version, items[0]), LoadedAfter(loaded, items[0]), version, items[1..],
             log + [EntryOf(loaded, items[0])])
  }

  function RunJob(db: Db, job: Job, log: seq<Entry>): (Db, seq<Entry>) {
    var items := Planned(db, job);
    WriteAll(db, Loaded(db, items), job.version, items, log)
  }

  function RunJobs(db: Db, jobs: seq<Job>, log: seq<Entry>): (Db, seq<Entry>)
    decreases |jobs|
  {
    if jobs == [] then (db, log) else
    var first := RunJob(db, jobs[0], log);
    RunJobs(first.0, jobs[1..], first.1)
  }

  /** A fresh probe on this key agreed with this row. */
  ghost predicate Matched(log: seq<Entry>, key: CacheKey, row: CacheRow) {
    exists e | e in log :: e.key == key && e.kind == AuditedHit && e.seen.Some? && AuditMatches(row, e.seen.value)
  }

  /** Every verdict served without re-simulation was matched by a fresh probe on its key earlier in the log. */
  ghost predicate ServedAreMatched(log: seq<Entry>) {
    forall j | 0 <= j < |log| && log[j].kind == PlainHit ::
      log[j].row.Some? && Matched(log[..j], log[j].key, log[j].row.value)
  }

  predicate AtVersion(jobs: seq<Job>, version: nat) {
    forall j | j in jobs :: j.version == version && forall p | p in j.plans :: !p.replay
  }

  /** No row of another schema version carries a passed stamp. */
  predicate NoOldStamp(db: Db, version: nat) {
    forall key | key in db.cache && db.cache[key].version != version :: db.cache[key].audit != Some(Passed)
  }

  /** The stamps of this version were earned by the jobs of this log. */
  ghost predicate ExplainsStamps(db: Db, version: nat, log: seq<Entry>) {
    && ServedAreMatched(log)
    && forall key | key in db.cache && db.cache[key].version == version && db.cache[key].audit == Some(Passed) ::
         Matched(log, key, db.cache[key])
  }

  /** A passed stamp is always current and was earned. */
  ghost predicate StampsEarned(db: Db, version: nat, log: seq<Entry>) {
    forall key | key in db.cache && db.cache[key].audit == Some(Passed) ::
      db.cache[key].version == version && Matched(log, key, db.cache[key])
  }

  /**
   While a job writes: a key is either loaded, and then the loaded object is the stored row, or it carries no pass.
   */
  ghost predicate ItemConsistent(db: Db, loaded: map<CacheKey, CacheRow>, it: Item) {
    var key := it.plan.Key();
    && (it.hit <==> key in loaded)
    && (it.hit && !it.needsAudit ==> loaded[key].audit.Some?)
    && (!it.hit && key in db.cache ==> db.cache[key].audit != Some(Passed))
  }

  ghost predicate Writing(db: Db, loaded: map<CacheKey, CacheRow>, version: nat, items: seq<Item>, log: seq<Entry>) {
    && StampsEarned(db, version, log)
    && ServedAreMatched(log)
    && (forall key | key in loaded :: key in db.cache && db.cache[key] == loaded[key] && loaded[key].version == version)
    && (forall it | it in items :: ItemConsistent(db, loaded, it))
  }

  lemma MatchedGrows(log: seq<Entry>, e: Entry, key: CacheKey, row: CacheRow)
    requires Matched(log, key, row)
    ensures Matched(log + [e], key, row)
  {
    var w :| w in log && w.key == key && w.kind == AuditedHit && w.seen.Some? && AuditMatches(row, w.seen.value);
    assert w in log + [e];
  }

  lemma LogExtends(log: seq<Entry>, e: Entry)
    requires ServedAreMatched(log)
    requires e.kind == PlainHit ==> e.row.Some? && Matched(log, e.key, e.row.value)
    ensures ServedAreMatched(log + [e])
  {
    var longer := log + [e];
    forall j | 0 <= j < |longer| && longer[j].kind == PlainHit
      ensures longer[j].row.Some? && Matched(longer[..j], longer[j].key, longer[j].row.value)
    {
      assert longer[..j] == log[..j];
    }
  }

  /** One item write touches its own key only. */
  lemma OtherKeysKept(cache: map<CacheKey, CacheRow>, loaded: map<CacheKey, CacheRow>, version: nat, it: Item,
      k: CacheKey)
    requires k != it.plan.Key()
    ensures
      var after := CacheAfter(cache, loaded, version, it);
      && (k in after <==> k in cache) && (k in cache ==> after[k] == cache[k])
      && (k in LoadedAfter(loaded, it) <==> k in loaded) && (k in loaded ==> LoadedAfter(loaded, it)[k] == loaded[k])
  {}

  /** A stamp turns to passed only when the probe matched the row it stamps; a stamp is never cleared. */
  lemma StampIsEarned(row: CacheRow, it: Item)
    ensures
      var kind := KindOf(Some(row), it);
      var after := Touched(row, row, it, kind);
      && after == row.(audit := after.audit, peer := after.peer, hits := after.hits)
      && (row.audit.Some? ==> after.audit.Some?)
      && (after.audit == Some(Passed) && row.audit != Some(Passed)
          ==> kind == AuditedHit && it.Probed().Some? && AuditMatches(row, it.Probed().value))
  {}

  lemma WriteKeepsStamps(db: Db, loaded: map<CacheKey, CacheRow>, version: nat, items: seq<Item>, log: seq<Entry>)
    requires items != [] && Writing(db, loaded, version, items, log)
    ensures StampsEarned(DbAfter(db, loaded, version, items[0]), version, log + [EntryOf(loaded, items[0])])
  {
    var it := items[0];
    var key := it.plan.Key();
    var e := EntryOf(loaded, it);
    var cache := CacheAfter(db.cache, loaded, version, it);
    assert it in items && ItemConsistent(db, loaded, it);
    assert e in log + [e];
    forall k | k in cache && cache[k].audit == Some(Passed)
      ensures cache[k].version == version && Matched(log + [e], k, cache[k])
    {
      if k != key {
        OtherKeysKept(db.cache, loaded, version, it, k);
        MatchedGrows(log, e, k, db.cache[k]);
      } else if it.hit {
        StampIsEarned(loaded[key], it);
        if loaded[key].audit == Some(Passed) {
          MatchedGrows(log, e, key, db.cache[key]);
        }
      }
    }
  }

  lemma WriteKeepsLog(db: Db, loaded: map<CacheKey, CacheRow>, version: nat, items: seq<Item>, log: seq<Entry>)
    requires items != [] && Writing(db, loaded, version, items, log)
    ensures ServedAreMatched(log + [EntryOf(loaded, items[0])])
  {
    var it := items[0];
    assert it in items && ItemConsistent(db, loaded, it);
    if KindOf(RowFor(loaded, it), it) == PlainHit {
      var stamp := loaded[it.plan.Key()].audit.value;
      assert stamp.Passed? || stamp.Failed?;
    }
    LogExtends(log, EntryOf(loaded, it));
  }

  lemma WriteKeepsWriting(db: Db, loaded: map<CacheKey, CacheRow>, version: nat, items: seq<Item>, log: seq<Entry>)
    requires items != [] && Writing(db, loaded, version, items, log)
    ensures
      Writing(DbAfter(db, loaded, version, items[0]), LoadedAfter(loaded, items[0]), version, items[1..],
              log + [EntryOf(loaded, items[0])])
  {
    var it := items[0];
    var key := it.plan.Key();
    WriteKeepsStamps(db, loaded, version, items, log);
    WriteKeepsLog(db, loaded, version, items, log);
    assert it in items && ItemConsistent(db, loaded, it);
    if it.hit {
      StampIsEarned(loaded[key], it);
    }
    var cache := CacheAfter(db.cache, loaded, version, it);
    var after := LoadedAfter(loaded, it);
    forall k | k in after ensures k in cache && cache[k] == after[k] && after[k].version == version {
      if k != key {
        OtherKeysKept(db.cache, loaded, version, it, k);
      }
    }
    forall other | other in items[1..] ensures ItemConsistent(DbAfter(db, loaded, version, it), after, other) {
      assert other in items && ItemConsistent(db, loaded, other);
      if other.plan.Key() != key {
        OtherKeysKept(db.cache, loaded, version, it, other.plan.Key());
      }
    }
  }

  lemma {:induction false} WriteAllKeepsTrust(db: Db, loaded: map<CacheKey, CacheRow>, version: nat, items: seq<Item>,
      log: seq<Entry>)
    requires Writing(db, loaded, version, items, log)
    ensures
      var end := WriteAll(db, loaded, version, items, log);
      StampsEarned(end.0, version, end.1) && ServedAreMatched(end.1)
    decreases |items|
  {
    if items != [] {
      WriteKeepsWriting(db, loaded, version, items, log);
      WriteAllKeepsTrust(DbAfter(db, loaded, version, items[0]), LoadedAfter(loaded, items[0]), version, items[1..],
                         log + [EntryOf(loaded, items[0])]);
    }
  }

  /** Without replay, whether an item hits depends on its key alone. */
  lemma PlannedItem(db: Db, job: Job, it: Item)
    requires it in Planned(db, job) && forall p | p in job.plans :: !p.replay
    ensures
      var key := it.plan.Key();
      && it.hit == (key in db.cache && db.cache[key].version == job.version)
      && (it.hit ==> it.needsAudit == db.cache[key].audit.None?)
  {
    var i :| 0 <= i < |job.plans| && Planned(db, job)[i] == it;
    assert job.plans[i] in job.plans;
  }

  lemma PlanningStartsWriting(db: Db, job: Job, log: seq<Entry>)
    requires StampsEarned(db, job.version, log) && ServedAreMatched(log)
    requires forall p | p in job.plans :: !p.replay
    ensures
      var items := Planned(db, job);
      Writing(db, Loaded(db, items), job.version, items, log)
  {
    var items := Planned(db, job);
    var loaded := Loaded(db, items);
    forall key | key in loaded ensures key in db.cache && db.cache[key] == loaded[key]
        && loaded[key].version == job.version {
      var w :| w in items && w.hit && w.plan.Key() == key;
      PlannedItem(db, job, w);
    }
    forall it | it in items ensures ItemConsistent(db, loaded, it) {
      PlannedItem(db, job, it);
    }
  }

  lemma {:induction false} RunKeepsTrust(db: Db, jobs: seq<Job>, version: nat, log: seq<Entry>)
    requires AtVersion(jobs, version) && StampsEarned(db, version, log) && ServedAreMatched(log)
    ensures
      var end := RunJobs(db, jobs, log);
      StampsEarned(end.0, version, end.1) && ServedAreMatched(end.1)
    decreases |jobs|
  {
    if jobs != [] {
      assert jobs[0] in jobs;
      var items := Planned(db, jobs[0]);
      PlanningStartsWriting(db, jobs[0], log);
      WriteAllKeepsTrust(db, Loaded(db, items), version, items, log);
      var first := RunJob(db, jobs[0], log);
      forall j | j in jobs[1..] ensures j in jobs {}
      RunKeepsTrust(first.0, jobs[1..], version, first.1);
    }
  }

  predicate ServedFromCache(e: Entry) {
    e.kind == PlainHit || e.kind == AuditedHit
  }

  /** While a job writes, a failed key is loaded as failed, if at all, and no item on it re-audits. */
  predicate Poisoned(db: Db, loaded: map<CacheKey, CacheRow>, items: seq<Item>, key: CacheKey) {
    && key in db.cache && db.cache[key].audit == Some(Failed)
    && (key in loaded ==> loaded[key].audit == Some(Failed))
    && (forall it | it in items && it.plan.Key() == key :: !it.needsAudit && (it.hit ==> key in loaded))
  }

  lemma WriteKeepsPoison(db: Db, loaded: map<CacheKey, CacheRow>, version: nat, it: Item, items: seq<Item>,
      key: CacheKey)
    requires Poisoned(db, loaded, [it] + items, key)
    ensures Poisoned(DbAfter(db, loaded, version, it), LoadedAfter(loaded, it), items, key)
    ensures it.plan.Key() == key ==> !ServedFromCache(EntryOf(loaded, it))
  {
    assert it in [it] + items;
    forall other | other in items ensures other in [it] + items {}
    if it.plan.Key() != key {
      OtherKeysKept(db.cache, loaded, version, it, key);
    }
  }

  lemma {:induction false} WriteAllKeepsPoison(
    db: Db, loaded: map<CacheKey, CacheRow>, version: nat, items: seq<Item>, log: seq<Entry>, key: CacheKey)
    requires Poisoned(db, loaded, items, key)
    ensures
      var end := WriteAll(db, loaded, version, items, log);
      && key in end.0.cache && end.0.cache[key].audit == Some(Failed)
      && log <= end.1 && forall e | e in end.1[|log|..] && e.key == key :: !ServedFromCache(e)
    decreases |items|
  {
    if items != [] {
      var it := items[0];
      assert items == [it] + items[1..];
      WriteKeepsPoison(db, loaded, version, it, items[1..], key);
      var longer := log + [EntryOf(loaded, it)];
      WriteAllKeepsPoison(DbAfter(db, loaded, version, it), LoadedAfter(loaded, it), version, items[1..], longer, key);
      var end := WriteAll(db, loaded, version, items, log);
      assert end.1[..|longer|] == longer;
      assert end.1[|log|..] == [EntryOf(loaded, it)] + end.1[|longer|..];
    }
  }

  lemma PlanningStartsPoisoned(db: Db, job: Job, key: CacheKey)
    requires key in db.cache && db.cache[key].audit == Some(Failed)
    ensures
      var items := Planned(db, job);
      Poisoned(db, Loaded(db, items), items, key)
  {
    var items := Planned(db, job);
    forall it | it in items && it.plan.Key() == key ensures !it.needsAudit && (it.hit ==> key in Loaded(db, items)) {
      var i :| 0 <= i < |items| && items[i] == it;
    }
  }

  /**
   A key left failed at the end of a job stays failed and is never served again, whatever the later jobs'
   schema versions, replays, probes or plans.
   */
  lemma {:induction false} FailedKeyIsNeverServed(db: Db, jobs: seq<Job>, log: seq<Entry>, key: CacheKey)
    requires key in db.cache && db.cache[key].audit == Some(Failed)
    ensures
      var end := RunJobs(db, jobs, log);
      && key in end.0.cache && end.0.cache[key].audit == Some(Failed)
      && log <= end.1 && forall e | e in end.1[|log|..] && e.key == key :: !ServedFromCache(e)
    decreases |jobs|
  {
    if jobs != [] {
      var items := Planned(db, jobs[0]);
      PlanningStartsPoisoned(db, jobs[0], key);
      WriteAllKeepsPoison(db, Loaded(db, items), jobs[0].version, items, log, key);
      var first := RunJob(db, jobs[0], log);
      FailedKeyIsNeverServed(first.0, jobs[1..], first.1, key);
      var end := RunJobs(db, jobs, log);
      assert end.1[|log|..] == first.1[|log|..] + end.1[|first.1|..];
    }
  }

  /** A plan that only asks the cache about `key`, and one whose probe proves a transferable effect. */
  function Asking(id: Identity, key: CacheKey, outcome: Option<Effect>): Plan {
    Plan(id.(effectClass := key.effectClass), key.hash, key.scope, key.surface, key.gateRef, false, outcome)
  }

  /** A transferable proof with nothing but a reason to compare. */
  function PlainProof(reason: string): Effect {
    Effect(Proven, Call, reason, map[], map[], None, None, false)
  }

  /** No probe of the log gave this reason. */
  predicate NewReason(log: seq<Entry>, reason: string) {
    reason != "" && forall i | 0 <= i < |log| && log[i].seen.Some? ::
        Get(log[i].seen.value.Payload(), REASON_KEY) != Some(Text(reason))
  }

  function ReasonLength(e: Entry): nat {
    if e.seen.None? then 0 else
    match Get(e.seen.value.Payload(), REASON_KEY)
    case Some(Text(s)) => |s|
    case _ => 0
  }

  lemma {:induction false} SomeReasonIsNew(log: seq<Entry>) returns (reason: string)
    ensures reason != "" && forall i | 0 <= i < |log| :: ReasonLength(log[i]) < |reason|
  {
    if log == [] {
      reason := "r";
    } else {
      var rest := SomeReasonIsNew(log[1..]);
      reason := rest + seq(ReasonLength(log[0]), _ => 'r') + "r";
      assert forall i | 0 < i < |log| :: log[i] == log[1..][i - 1];
    }
  }

  lemma OneItemJob(db: Db, job: Job, log: seq<Entry>)
    requires |job.plans| == 1
    ensures
      var it := PlanItem(db, job, job.plans[0]);
      RunJob(db, job, log) == (DbAfter(db, Loaded(db, [it]), job.version, it), log + [EntryOf(Loaded(db, [it]), it)])
  {
    var it := PlanItem(db, job, job.plans[0]);
    var loaded := Loaded(db, [it]);
    assert Planned(db, job) == [it];
    var rest: seq<Item> := [it][1..];
    var longer := log + [EntryOf(loaded, it)];
    assert WriteAll(DbAfter(db, loaded, job.version, it), LoadedAfter(loaded, it), job.version, rest, longer)
        == (DbAfter(db, loaded, job.version, it), longer);
  }

  lemma RunsUnfold(db: Db, first: Job, second: Job, log: seq<Entry>)
    ensures
      var mid := RunJob(db, first, log);
      RunJobs(db, [first, second], log) == RunJob(mid.0, second, mid.1)
  {
    var mid := RunJob(db, first, log);
    var end := RunJob(mid.0, second, mid.1);
    assert [first, second][1..] == [second];
    var rest: seq<Job> := [second][1..];
    assert RunJobs(end.0, rest, end.1) == end;
    assert RunJobs(mid.0, [second], mid.1) == end;
  }

  /** A passed stamp the log does not explain is served unmatched by the next job that meets it. */
  lemma StampedRowIsServed(db: Db, version: nat, id: Identity, key: CacheKey, log: seq<Entry>)
    requires key in db.cache && db.cache[key].audit == Some(Passed) && db.cache[key].version == version
    requires Normalized(key) == key && !Matched(log, key, db.cache[key])
    ensures !ServedAreMatched(RunJob(db, Job(version, [Asking(id, key, None)], false), log).1)
  {
    var job := Job(version, [Asking(id, key, None)], false);
    OneItemJob(db, job, log);
    var end := RunJob(db, job, log).1;
    assert end[|log|].kind == PlainHit && end[..|log|] == log;
  }

  /** The schema bump that keeps an old stamp: the refresh is a miss, yet the stamp survives it. */
  lemma RefreshKeepsStamp(db: Db, version: nat, id: Identity, key: CacheKey, reason: string, log: seq<Entry>)
    requires key in db.cache && db.cache[key].version != version && Normalized(key) == key
    ensures
      var end := RunJob(db, Job(version, [Asking(id, key, Some(PlainProof(reason)))], false), log);
      && key in end.0.cache && end.0.cache[key].version == version
      && end.0.cache[key].audit == db.cache[key].audit
      && end.0.cache[key].details == CodePlane(OrNone(PlainProof(reason).Payload()))
      && |end.1| == |log| + 1 && end.1[..|log|] == log && end.1[|log|].kind == Miss
  {
    OneItemJob(db, Job(version, [Asking(id, key, Some(PlainProof(reason)))], false), log);
  }

  /** A row whose only evidence is a reason nobody gave is matched by nobody. */
  lemma NewReasonIsUnmatched(log: seq<Entry>, key: CacheKey, row: CacheRow, reason: string)
    requires NewReason(log, reason) && row.details == CodePlane(OrNone(PlainProof(reason).Payload()))
    ensures !Matched(log, key, row)
  {
    assert PlainProof(reason).Payload() == map[REASON_KEY := Text(reason)];
    assert REASON_KEY !in DEPLOYMENT_PLANE_KEYS;
    assert Dict(row.details) == map[REASON_KEY := Text(reason)];
    assert forall k | k in KERNEL_SIGNATURE_KEYS :: k != REASON_KEY;
    assert !Comparable(Dict(row.details));
  }

  lemma MissIsNoMatch(log: seq<Entry>, longer: seq<Entry>, key: CacheKey, row: CacheRow)
    requires |longer| == |log| + 1 && longer[..|log|] == log && longer[|log|].kind == Miss && !Matched(log, key, row)
    ensures !Matched(longer, key, row)
  {
    assert longer == log + [longer[|log|]];
  }

  lemma OldStampBreaksTrust(db: Db, version: nat, id: Identity, key: CacheKey, log: seq<Entry>) returns (jobs: seq<Job>)
    requires key in db.cache && db.cache[key].audit == Some(Passed) && db.cache[key].version != version
    requires Normalized(key) == key
    ensures AtVersion(jobs, version) && !ServedAreMatched(RunJobs(db, jobs, log).1)
  {
    var reason := SomeReasonIsNew(log);
    var refresh := Job(version, [Asking(id, key, Some(PlainProof(reason)))], false);
    var ask := Job(version, [Asking(id, key, None)], false);
    RefreshKeepsStamp(db, version, id, key, reason, log);
    var mid := RunJob(db, refresh, log);
    NewReasonIsUnmatched(log, key, mid.0.cache[key], reason);
    MissIsNoMatch(log, mid.1, key, mid.0.cache[key]);
    StampedRowIsServed(mid.0, version, id, key, mid.1);
    RunsUnfold(db, refresh, ask, log);
    jobs := [refresh, ask];
  }

  /**
   Serial jobs at one schema version, without recovery replay, continue a log that explains the stamps of that
   version. They serve only verdicts that a fresh probe matched earlier, if and only if no row of another version
   carries a passed stamp. A refresh never clears a stamp, so one inherited from an older schema is trusted
   without an audit.
   */
  lemma ServedVerdictsWereMatched(db: Db, version: nat, log: seq<Entry>)
    requires ExplainsStamps(db, version, log) && forall key | key in db.cache :: Normalized(key) == key
    ensures
      (forall jobs | AtVersion(jobs, version) :: ServedAreMatched(RunJobs(db, jobs, log).1)) <==>
          NoOldStamp(db, version)
  {
    if NoOldStamp(db, version) {
      forall jobs | AtVersion(jobs, version) ensures ServedAreMatched(RunJobs(db, jobs, log).1) {
        RunKeepsTrust(db, jobs, version, log);
      }
    } else {
      var key :| key in db.cache && db.cache[key].version != version && db.cache[key].audit == Some(Passed);
      var jobs := OldStampBreaksTrust(db, version, Identity(1, "0x00", "", ValueOut), key, log);
    }
  }

  /** A serial job is one particular interleaving of the item writes. */
  lemma SerialJobIsARun(s: P.Sys, id: nat, job: Job, log: seq<Entry>)
    requires id !in s.open
    ensures P.Exec(s, [P.Start(id, job)] + seq(|job.plans|, _ => P.Write(id))).db == RunJob(s.db, job, log).0
  {
    var run := [P.Start(id, job)] + seq(|job.plans|, _ => P.Write(id));
    var started := P.Step(s, P.Start(id, job));
    assert run[1..] == seq(|started.open[id].items|, _ => P.Write(id));
    SerialWritesAreARun(started, id, log);
  }

  lemma {:induction false} SerialWritesAreARun(s: P.Sys, id: nat, log: seq<Entry>)
    requires id in s.open
    ensures
      var o := s.open[id];
      P.Exec(s, seq(|o.items|, _ => P.Write(id))).db == WriteAll(s.db, o.loaded, o.version, o.items, log).0
    decreases |s.open[id].items|
  {
    var o := s.open[id];
    if o.items != [] {
      var run := seq(|o.items|, _ => P.Write(id));
      assert run[1..] == seq(|o.items| - 1, _ => P.Write(id));
      SerialWritesAreARun(P.Step(s, P.Write(id)), id, log + [EntryOf(o.loaded, o.items[0])]);
    }
  }
}
