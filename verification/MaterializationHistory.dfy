/**
 What a row looks like told by what happened to its key: the claims made of it, the failures that landed on it
 and the ready rows written to it.
 */
module MaterializationHistory {
  import opened Common
  import opened Materialization
  import opened MaterializationOverlap

  datatype Mark = ClaimMade(key: Key) | FailureLanded(key: Key, deterministic: bool) | ReadyWritten(key: Key)

  predicate Wakes(w: World, id: nat) {
    id in w.callers && w.callers[id].phase.Polling? && w.callers[id].phase.wakeAt <= w.now
  }

  /** The mark a step leaves on a key, if any. */
  ghost function MarkOf(w: World, e: Event): Option<Mark> {
    match e
    case Poll(id, prefer) =>
      if !Wakes(w, id) then None else
      var phase := Polled(w, id, prefer).callers[id].phase;
      if phase.Claimed? then Some(ClaimMade(w.callers[id].key))
      else if phase.Refetching? then Some(ReadyWritten(w.callers[id].key))
      else None
    case FailureLands(id) =>
      if id !in w.callers || !w.callers[id].phase.Raising? then None
      else Some(FailureLanded(w.callers[id].key, w.callers[id].phase.deterministic))
    case Finish(id) =>
      if id !in w.callers || !w.callers[id].phase.Built? then None
      else if FinishResult(w.rows, w.callers[id], w.callers[id].phase.bundle).1.Refetching?
          then Some(ReadyWritten(w.callers[id].key))
      else None
    case Publish(o) => if PublishDecision(w.rows, o) in {Written, Refreshed} then Some(ReadyWritten(o.key)) else None
    case _ => None
  }

  ghost function Marks(w: World, run: seq<Event>): seq<Mark>
    decreases |run|
  {
    if run == [] then [] else
    match MarkOf(w, run[0])
    case None => Marks(Step(w, run[0]), run[1..])
    case Some(m) => [m] + Marks(Step(w, run[0]), run[1..])
  }

  // ----- the deterministic-failure flag -----

  predicate Flagged(rows: Table, key: Key) {
    key in rows && rows[key].deterministic
  }

  /** A claim or a landing decides the flag; a ready write, by build, copy or publish, leaves it. */
  predicate DecidesFlag(m: Mark, key: Key) {
    m.key == key && !m.ReadyWritten?
  }

  function FlagAfter(flag: bool, m: Mark, key: Key): bool {
    if !DecidesFlag(m, key) then flag else m.FailureLanded? && m.deterministic
  }

  lemma StepFlags(w: World, e: Event, key: Key)
    ensures
      var m := MarkOf(w, e);
      Flagged(Step(w, e).rows, key) == if m.Some? then FlagAfter(Flagged(w.rows, key), m.value, key)
          else Flagged(w.rows, key)
  {}

  /** The last claim of or landing on the key was a deterministic failure. */
  predicate FailureDecides(marks: seq<Mark>, key: Key, i: int) {
    && 0 <= i < |marks| && marks[i] == FailureLanded(key, true)
    && forall j | i < j < |marks| :: !DecidesFlag(marks[j], key)
  }

  ghost predicate FlagExplained(flag: bool, marks: seq<Mark>, key: Key) {
    || (exists i :: FailureDecides(marks, key, i))
    || (flag && forall j | 0 <= j < |marks| :: !DecidesFlag(marks[j], key))
  }

  lemma Shifted(m: Mark, marks: seq<Mark>)
    ensures forall j | 0 <= j < |marks| :: marks[j] == ([m] + marks)[j + 1]
    ensures forall j | 0 < j < |marks| + 1 :: ([m] + marks)[j] == marks[j - 1]
  {}

  lemma FlagOneMore(flag: bool, m: Mark, marks: seq<Mark>, key: Key)
    ensures FlagExplained(flag, [m] + marks, key) <==> FlagExplained(FlagAfter(flag, m, key), marks, key)
  {
    var more := [m] + marks;
    Shifted(m, marks);
    if FlagExplained(flag, more, key) {
      if i :| FailureDecides(more, key, i) {
        assert i > 0 ==> FailureDecides(marks, key, i - 1);
      } else {
        assert !DecidesFlag(more[0], key);
      }
    }
    if FlagExplained(FlagAfter(flag, m, key), marks, key) {
      if i :| FailureDecides(marks, key, i) {
        assert FailureDecides(more, key, i + 1);
      } else if DecidesFlag(m, key) {
        assert FailureDecides(more, key, 0);
      }
    }
  }

  lemma {:induction false} FlagsTellHistory(w: World, run: seq<Event>, key: Key)
    ensures Flagged(Exec(w, run).rows, key) <==> FlagExplained(Flagged(w.rows, key), Marks(w, run), key)
    decreases |run|
  {
    if run != [] {
      StepFlags(w, run[0], key);
      FlagsTellHistory(Step(w, run[0]), run[1..], key);
      if MarkOf(w, run[0]).Some? {
        FlagOneMore(Flagged(w.rows, key), MarkOf(w, run[0]).value, Marks(Step(w, run[0]), run[1..]), key);
      }
    }
  }

  /**
   Starting without flagged rows, a ready row carries the deterministic-failure flag if and only if the last claim
   of or failure landed on its key was a deterministic failure.
   */
  lemma ReadyRowsFlag(w: World, run: seq<Event>, key: Key)
    requires forall k | k in w.rows :: !w.rows[k].deterministic
    requires key in Exec(w, run).rows && Exec(w, run).rows[key].status == Ready
    ensures Exec(w, run).rows[key].deterministic <==> exists i :: FailureDecides(Marks(w, run), key, i)
  {
    FlagsTellHistory(w, run, key);
  }

  // ----- what a finished call reads back -----

  /** One step's effect on whether a row is ready at the run's version; a claim is only made of one that is not. */
  lemma StepReady(w: World, version: nat, e: Event, key: Key)
    requires Claims(w, version) && EventAt(e, version)
    ensures ReadyMoves(w, version, e, key)
  {
    if e.Poll? {
      if Wakes(w, e.id) {
        PollReady(w, version, e.id, e.prefer, key);
      }
    } else if e.Finish? && e.id in w.callers {
      assert CallerOk(w, version, w.callers[e.id]);
    }
  }

  ghost predicate ReadyMoves(w: World, version: nat, e: Event, key: Key) {
    var m := MarkOf(w, e);
    && IsReady(Step(w, e).rows, key, version)
       == (if m.Some? && m.value.key == key then m.value.ReadyWritten? else IsReady(w.rows, key, version))
    && (m == Some(ClaimMade(key)) ==> !IsReady(w.rows, key, version))
  }

  lemma PollReady(w: World, version: nat, id: nat, prefer: Option<Key>, key: Key)
    requires Claims(w, version) && Wakes(w, id)
    ensures ReadyMoves(w, version, Poll(id, prefer), key)
  {
    assert CallerOk(w, version, w.callers[id]);
  }

  /** A failure landed on the key and no ready row was written since. */
  predicate FailedSince(marks: seq<Mark>, key: Key, i: int) {
    && 0 <= i < |marks| && marks[i].FailureLanded? && marks[i].key == key
    && forall j | i < j < |marks| :: marks[j] != ReadyWritten(key)
  }

  ghost predicate NotReadyExplained(ready: bool, marks: seq<Mark>, key: Key) {
    || (exists i :: FailedSince(marks, key, i))
    || (!ready && forall j | 0 <= j < |marks| :: marks[j] != ReadyWritten(key))
  }

  lemma NotReadyOneMore(ready: bool, after: bool, m: Mark, marks: seq<Mark>, key: Key)
    requires after == if m.key == key then m.ReadyWritten? else ready
    requires m == ClaimMade(key) ==> !ready
    ensures NotReadyExplained(ready, [m] + marks, key) <==> NotReadyExplained(after, marks, key)
  {
    var more := [m] + marks;
    Shifted(m, marks);
    if NotReadyExplained(ready, more, key) {
      if i :| FailedSince(more, key, i) {
        assert i > 0 ==> FailedSince(marks, key, i - 1);
      } else {
        assert more[0] != ReadyWritten(key);
      }
    }
    if NotReadyExplained(after, marks, key) {
      if i :| FailedSince(marks, key, i) {
        assert FailedSince(more, key, i + 1);
      } else if m.FailureLanded? && m.key == key {
        assert FailedSince(more, key, 0);
      }
    }
  }

  lemma {:induction false} ReadinessTellsHistory(w: World, version: nat, run: seq<Event>, key: Key)
    requires Claims(w, version) && AtVersion(run, version)
    ensures
      !IsReady(Exec(w, run).rows, key, version) <==>
          NotReadyExplained(IsReady(w.rows, key, version), Marks(w, run), key)
    decreases |run|
  {
    if run != [] {
      assert run[0] in run;
      StepReady(w, version, run[0], key);
      StepKeepsClaims(w, version, run[0]);
      var t := Step(w, run[0]);
      ReadinessTellsHistory(t, version, run[1..], key);
      if MarkOf(w, run[0]).Some? {
        NotReadyOneMore(
          IsReady(w.rows, key, version), IsReady(t.rows, key, version), MarkOf(w, run[0]).value, Marks(t, run[1..]),
              key);
      }
    }
  }

  lemma {:induction false} CallWaits(w: World, id: nat, run: seq<Event>)
    requires id in w.callers && w.callers[id].phase.Refetching? && Refetch(id) !in run && Crash(id) !in run
    ensures id in Exec(w, run).callers && Exec(w, run).callers[id] == w.callers[id]
    ensures w.rows.Keys <= Exec(w, run).rows.Keys
    decreases |run|
  {
    if run != [] {
      assert run[0] in run && run[0] != Refetch(id) && run[0] != Crash(id);
      OthersLeaveCall(w, id, run[0]);
      CallWaits(Step(w, run[0]), id, run[1..]);
    }
  }

  lemma OthersLeaveCall(w: World, id: nat, e: Event)
    requires id in w.callers && w.callers[id].phase.Refetching? && e != Refetch(id) && e != Crash(id)
    ensures id in Step(w, e).callers && Step(w, e).callers[id] == w.callers[id] && w.rows.Keys <= Step(w, e).rows.Keys
  {}

  /**
   At one version: a call that has just written its row reads back one that is not ready if and only if a failure
   landed on its key in between and no ready row was written since.
   */
  lemma ReadBackIsReady(w: World, version: nat, id: nat, run: seq<Event>)
    requires Claims(w, version) && AtVersion(run, version)
    requires id in w.callers && w.callers[id].phase.Refetching? && IsReady(w.rows, w.callers[id].key, version)
    requires Refetch(id) !in run && Crash(id) !in run
    ensures
      var t := Step(Exec(w, run), Refetch(id));
      && id in t.callers && t.callers[id].phase.Returned?
      && (!ReadyAt(t.callers[id].phase.row, version) <==> exists i :: FailedSince(Marks(w, run), w.callers[id].key, i))
  {
    CallWaits(w, id, run);
    ReadinessTellsHistory(w, version, run, w.callers[id].key);
  }

  // ----- keys on which no failure lands -----

  ghost predicate NoFailureLandsOn(w: World, run: seq<Event>, key: Key)
    decreases |run|
  {
    run == [] || (!LandsOn(w, run[0], key) && NoFailureLandsOn(Step(w, run[0]), run[1..], key))
  }

  ghost predicate LandsOn(w: World, e: Event, key: Key) {
    MarkOf(w, e).Some? && MarkOf(w, e).value.FailureLanded? && MarkOf(w, e).value.key == key
  }

  /** No failure has landed on the key, so no claim of it follows one. */
  predicate Calm(w: World, key: Key) {
    key !in w.landings && forall id | id in w.callers && w.callers[id].key == key && IsBuilding(w.callers[id]) ::
        w.callers[id].phase.landing == 0
  }

  lemma StepKeepsCalm(w: World, e: Event, key: Key)
    requires Calm(w, key) && !LandsOn(w, e, key)
    ensures Calm(Step(w, e), key)
  {}

  /** Builds of the key overlap only after the staleness period or for a caller that waited it out. */
  predicate OverlapsAreLate(w: World, key: Key) {
    forall a, b | a in w.callers && b in w.callers && IsBuilding(w.callers[a]) && IsBuilding(w.callers[b])
                  && w.callers[a].key == key && w.callers[b].key == key
                      && w.callers[a].phase.no < w.callers[b].phase.no ::
      || w.callers[b].phase.at >= w.callers[a].phase.at + w.cfg.staleness
      || w.callers[b].phase.at >= w.callers[b].entered + w.cfg.staleness
  }

  /** At one version, while no failure lands on a key, its builds overlap only late. */
  lemma {:induction false} CalmRuns(w: World, version: nat, run: seq<Event>, key: Key)
    requires Claims(w, version) && OverlapsAllowed(w) && Calm(w, key)
    requires AtVersion(run, version) && NoFailureLandsOn(w, run, key)
    ensures OverlapsAreLate(Exec(w, run), key)
    decreases |run|
  {
    if run == [] {
      assert forall a, b | a in w.callers && b in w.callers && IsBuilding(w.callers[a]) && IsBuilding(w.callers[b])
                           && w.callers[a].key == w.callers[b].key && w.callers[a].phase.no < w.callers[b].phase.no ::
        OverlapAllowed(w.cfg, w.callers[a], w.callers[b]);
    } else {
      assert run[0] in run;
      StepKeepsClaims(w, version, run[0]);
      StepKeepsOverlaps(w, version, run[0]);
      StepKeepsCalm(w, run[0], key);
      CalmRuns(Step(w, run[0]), version, run[1..], key);
    }
  }

  /**
   And a landing is enough: while a young build of the key is in flight, landing a failure on it lets a new caller
   of another address start a second build at once.
   */
  lemma LandingLetsBuildsOverlap(w: World, version: nat, a: nat, j: nat) returns (run: seq<Event>)
    requires Claims(w, version) && a in w.callers && j in w.callers && w.callers[a].key == w.callers[j].key
    requires IsBuilding(w.callers[a]) && w.now < w.callers[a].phase.at + w.cfg.staleness && w.callers[j].phase.Raising?
    ensures AtVersion(run, version) && |run| == 3 && run[0] == FailureLands(j)
    ensures !OverlapsAreLate(Exec(w, run), w.callers[a].key)
  {
    var key := w.callers[a].key;
    var n := LargerThanAll(w.callers.Keys);
    var address := LongerThanAll(map k | k in w.rows :: w.rows[k].address);
    assert forall k | k in w.rows :: |(map x | x in w.rows :: w.rows[x].address)[k]| < |address|;
    run := [FailureLands(j), Enter(n, key, address, version, None), Poll(n, None)];
    assert CallerOk(w, version, w.callers[a]);
    NewcomerClaims(w, a, j, n, address, version);
    ExecThree(w, run[0], run[1], run[2]);
  }

  lemma NewcomerClaims(w: World, a: nat, j: nat, n: nat, address: string, version: nat)
    requires a in w.callers && j in w.callers && n !in w.callers && w.callers[a].key == w.callers[j].key
    requires IsBuilding(w.callers[a]) && w.callers[j].phase.Raising? && w.callers[j].key in w.rows
    requires w.callers[a].phase.at <= w.now < w.callers[a].phase.at + w.cfg.staleness
    requires w.callers[a].phase.no < w.claims
    requires forall k | k in w.rows :: w.rows[k].address != address
    ensures
      var u := Step(Step(w, FailureLands(j)), Enter(n, w.callers[a].key, address, version, None));
      !OverlapsAreLate(Step(u, Poll(n, None)), w.callers[a].key)
  {
    var u := Step(Step(w, FailureLands(j)), Enter(n, w.callers[a].key, address, version, None));
    assert u.callers[n] == Caller(w.callers[a].key, address, version, None, w.now, Polling(w.now));
    assert u.callers[a] == w.callers[a] && !AddressTaken(u.rows, w.callers[a].key, address);
    assert PickDonor(u.rows, u.callers[n], None) == None;
    var t := Step(u, Poll(n, None));
    assert t.callers[n].phase.Claimed? && t.callers[n].phase.no == w.claims && t.callers[a] == w.callers[a];
  }

  lemma ExecThree(w: World, a: Event, b: Event, c: Event)
    ensures Exec(w, [a, b, c]) == Step(Step(Step(w, a), b), c)
  {
    assert [a, b, c][1..] == [b, c] && [b, c][1..] == [c];
    var none: seq<Event> := [c][1..];
    assert Exec(Step(Step(Step(w, a), b), c), none) == Step(Step(Step(w, a), b), c);
    assert Exec(Step(Step(w, a), b), [c]) == Step(Step(Step(w, a), b), c);
  }
}
