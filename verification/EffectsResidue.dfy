/** How often a cache hit re-probes a deployment for the residue its row lacks. */
module EffectsResidue {
  import opened Common
  import opened EffectCache
  import opened EffectsStage
  import opened EffectsTrust

  function Attempts(db: Db, id: Identity): nat {
    if id in db.verdicts then AttemptsOf(db.verdicts[id].residue) else 0
  }

  /** Re-probes the stored row still allows. */
  function Budget(db: Db, id: Identity): nat {
    if Attempts(db, id) < MAX_RESIDUE_ATTEMPTS then MAX_RESIDUE_ATTEMPTS - Attempts(db, id) else 0
  }

  /** The items of a worklist that re-probe this deployment for residue only. */
  function ReProbes(items: seq<Item>, id: Identity): nat {
    if items == [] then 0 else
    (if items[0].plan.id == id && items[0].ReProbed() then 1 else 0) + ReProbes(items[1..], id)
  }

  function Occurrences(plans: seq<Plan>, id: Identity): nat {
    if plans == [] then 0 else (if plans[0].id == id then 1 else 0) + Occurrences(plans[1..], id)
  }

  function RunReProbes(db: Db, jobs: seq<Job>, id: Identity): nat
    decreases |jobs|
  {
    if jobs == [] then 0 else
    ReProbes(Planned(db, jobs[0]), id) + RunReProbes(RunJob(db, jobs[0], []).0, jobs[1..], id)
  }

  /** The attempt count an upsert leaves: the incoming one when the write carries it, otherwise the stored one. */
  lemma RecordedAttempts(existing: Option<VerdictRow>, w: VerdictWrite)
    ensures
      var stored := if existing.Some? then AttemptsOf(existing.value.residue) else 0;
      var after := AttemptsOf(Recorded(existing, w).residue);
      after == if ATTEMPTS_KEY in Dict(w.row.residue) then AttemptsOf(w.row.residue) else stored
  {}

  lemma WrittenAttempts(row: Option<CacheRow>, it: Item)
    ensures
      var residue := WriteOf(row, it).row.residue;
      && (it.residueProbe <==> ATTEMPTS_KEY in Dict(residue))
      && (it.residueProbe ==> AttemptsOf(residue) == it.residueAttempts + 1)
  {
    assert forall concrete :: ATTEMPTS_KEY in Dict(ObservedResidue(it, concrete)) <==> it.residueProbe;
  }

  lemma ItemAttempts(db: Db, loaded: map<CacheKey, CacheRow>, version: nat, it: Item, id: Identity)
    ensures
      Attempts(DbAfter(db, loaded, version, it), id)
      == if it.plan.id == id && it.residueProbe then it.residueAttempts + 1 else Attempts(db, id)
  {
    if it.plan.id == id {
      var row := RowFor(loaded, it);
      WrittenAttempts(row, it);
      RecordedAttempts(if id in db.verdicts then Some(db.verdicts[id]) else None, WriteOf(row, it));
    }
  }

  /** Some item of the worklist is flagged for a residue probe of this deployment. */
  predicate HasFlag(items: seq<Item>, id: Identity) {
    exists i | 0 <= i < |items| :: items[i].plan.id == id && items[i].residueProbe
  }

  /** Every flagged item of a job read the same count, so a flagged worklist moves it up by exactly one. */
  lemma {:induction false} WriteAllAttempts(
    db: Db, loaded: map<CacheKey, CacheRow>, version: nat, items: seq<Item>, log: seq<Entry>, id: Identity, read: nat)
    requires forall it | it in items && it.plan.id == id && it.residueProbe :: it.residueAttempts == read
    ensures
      Attempts(WriteAll(db, loaded, version, items, log).0, id) == if HasFlag(items, id) then read + 1
          else Attempts(db, id)
    decreases |items|
  {
    if items != [] {
      assert items[0] in items;
      forall it | it in items[1..] ensures it in items {}
      ItemAttempts(db, loaded, version, items[0], id);
      assert HasFlag(items, id) <==> (items[0].plan.id == id && items[0].residueProbe) || HasFlag(items[1..], id) by {
        assert forall i | 0 < i < |items| :: items[i] == items[1..][i - 1];
        assert forall i | 0 <= i < |items[1..]| :: items[1..][i] == items[i + 1];
      }
      WriteAllAttempts(DbAfter(db, loaded, version, items[0]), LoadedAfter(loaded, items[0]), version, items[1..],
                       log + [EntryOf(loaded, items[0])], id, read);
    }
  }

  lemma FlaggedItem(db: Db, job: Job, it: Item)
    requires it in Planned(db, job) && it.residueProbe
    ensures it.residueAttempts == Attempts(db, it.plan.id) < MAX_RESIDUE_ATTEMPTS
  {
    var i :| 0 <= i < |job.plans| && Planned(db, job)[i] == it;
  }

  lemma {:induction false} ReProbesNeedAFlag(items: seq<Item>, id: Identity)
    ensures ReProbes(items, id) > 0 ==> HasFlag(items, id)
  {
    if items != [] {
      ReProbesNeedAFlag(items[1..], id);
      assert forall i | 0 <= i < |items[1..]| :: items[1..][i] == items[i + 1];
    }
  }

  lemma {:induction false} ReProbesAtMostItems(db: Db, job: Job, id: Identity, from: nat)
    requires from <= |job.plans|
    ensures ReProbes(Planned(db, job)[from..], id) <= Occurrences(job.plans[from..], id)
    decreases |job.plans| - from
  {
    if from < |job.plans| {
      ReProbesAtMostItems(db, job, id, from + 1);
      assert Planned(db, job)[from..][1..] == Planned(db, job)[from + 1..];
      assert job.plans[from..][1..] == job.plans[from + 1..];
    }
  }

  /**
   A job that flags the deployment for a residue probe spends one attempt, even if the flagged item is one whose
   probe does not run; any other job spends none. Only flagged jobs re-probe.
   */
  lemma JobSpendsBudget(db: Db, job: Job, id: Identity)
    ensures
      var items, after := Planned(db, job), RunJob(db, job, []).0;
      && (HasFlag(items, id) ==> Budget(db, id) > 0)
      && Budget(after, id) == Budget(db, id) - (if HasFlag(items, id) then 1 else 0)
      && (ReProbes(items, id) > 0 ==> HasFlag(items, id))
  {
    var items := Planned(db, job);
    forall it | it in items && it.plan.id == id
        && it.residueProbe ensures it.residueAttempts == Attempts(db, id) < MAX_RESIDUE_ATTEMPTS {
      FlaggedItem(db, job, it);
    }
    ReProbesNeedAFlag(items, id);
    WriteAllAttempts(db, Loaded(db, items), job.version, items, [], id, Attempts(db, id));
  }

  lemma JobWithinBudget(db: Db, job: Job, id: Identity, most: nat)
    requires Occurrences(job.plans, id) <= most
    ensures ReProbes(Planned(db, job), id) + most * Budget(RunJob(db, job, []).0, id) <= most * Budget(db, id)
  {
    var spent := ReProbes(Planned(db, job), id);
    JobSpendsBudget(db, job, id);
    ReProbesAtMostItems(db, job, id, 0);
    assert Planned(db, job)[0..] == Planned(db, job) && job.plans[0..] == job.plans;
    Scaled(most, Budget(RunJob(db, job, []).0, id), Budget(db, id), spent);
  }

  lemma Scaled(m: nat, a: nat, b: nat, spent: nat)
    requires a <= b && spent <= m && (spent > 0 ==> a < b)
    ensures spent + m * a <= m * b
  {
    if a < b {
      assert m * b == m * (b - 1) + m;
      Scaled(m, a, b - 1, 0);
    }
  }

  /**
   Over any run of serial jobs in which no job has more than `most` items on a deployment, that deployment is
   re-probed for residue at most `most` times per remaining attempt, however verdicts and behaviour hashes flip.
   */
  lemma {:induction false} ReProbesAreBounded(db: Db, jobs: seq<Job>, id: Identity, most: nat)
    requires forall j | j in jobs :: Occurrences(j.plans, id) <= most
    ensures RunReProbes(db, jobs, id) <= most * Budget(db, id)
    decreases |jobs|
  {
    if jobs != [] {
      assert jobs[0] in jobs;
      JobWithinBudget(db, jobs[0], id, most);
      ReProbesAreBounded(RunJob(db, jobs[0], []).0, jobs[1..], id, most);
    }
  }

  /** One item per deployment and job: two residue-only re-probes at most, over any run length. */
  lemma AtMostTwoReProbes(db: Db, jobs: seq<Job>, id: Identity)
    requires forall j | j in jobs :: Occurrences(j.plans, id) <= 1
    ensures RunReProbes(db, jobs, id) <= MAX_RESIDUE_ATTEMPTS
  {
    ReProbesAreBounded(db, jobs, id, 1);
  }
}
