/** Four things a failure that lands late can do; each is a concrete run at one version. */
module MaterializationLateFailures {
  import opened Common
  import opened Materialization
  import opened MaterializationOverlap

  const KEY := Key("1", "0xaa")
  const CFG := Config(900.0, 1.0)
  const START := World(CFG, 0.0, map[], map[], 0, map[], {}, {})
  const BUNDLE := Bundle(Some("Vault"), Some("{}"), Some("{}"), None)

  lemma {:induction false} ExecAppend(w: World, first: seq<Event>, rest: seq<Event>)
    ensures Exec(w, first + rest) == Exec(Exec(w, first), rest)
    decreases |first|
  {
    if first == [] {
      assert first + rest == rest;
    } else {
      assert (first + rest)[1..] == first[1..] + rest;
      ExecAppend(Step(w, first[0]), first[1..], rest);
    }
  }

  lemma ExecTwo(w: World, a: Event, b: Event)
    ensures Exec(w, [a, b]) == Step(Step(w, a), b)
  {
    assert [a, b][1..] == [b];
    var none: seq<Event> := [b][1..];
    assert Exec(Step(Step(w, a), b), none) == Step(Step(w, a), b);
    assert Exec(Step(w, a), [b]) == Step(Step(w, a), b);
  }

  function Entered(id: nat, address: string): Event {
    Enter(id, KEY, address, 1, Some("h"))
  }

  function Calling(address: string, entered: real, phase: Phase): Caller {
    Caller(KEY, address, 1, Some("h"), entered, phase)
  }

  /** A first builder, of 0x1, goes stale and a second one takes its claim over. */
  function Takeover(second: string): seq<Event> {
    [Entered(0, "0x1"), Poll(0, None)] + [Tick(900.0), Entered(1, second)] + [Poll(1, None), Tick(0.0)]
  }

  ghost function TakenOver(second: string): World {
    START.(now := 900.0,
           rows := map[KEY := Row(second, NO_BUNDLE, Building, None, false, Some(900.0), Some("h"), 1)],
           callers := map[0 := Calling("0x1", 0.0, Claimed(0.0, 0, 0)),
               1 := Calling(second, 900.0, Claimed(900.0, 1, 0))],
           claims := 2)
  }

  lemma FirstClaim()
    ensures
      Step(Step(START, Entered(0, "0x1")), Poll(0, None))
      == START.(rows := map[KEY := Row("0x1", NO_BUNDLE, Building, None, false, Some(0.0), Some("h"), 1)],
                callers := map[0 := Calling("0x1", 0.0, Claimed(0.0, 0, 0))], claims := 1)
  {
    var w := Step(START, Entered(0, "0x1"));
    assert w.callers[0] == Calling("0x1", 0.0, Polling(0.0));
    assert PickDonor(w.rows, w.callers[0], None) == None;
  }

  lemma SecondClaim(w: World, second: string)
    requires w == START.(rows := map[KEY := Row("0x1", NO_BUNDLE, Building, None, false, Some(0.0), Some("h"), 1)],
                         callers := map[0 := Calling("0x1", 0.0, Claimed(0.0, 0, 0))], claims := 1)
    ensures Step(Step(Step(Step(w, Tick(900.0)), Entered(1, second)), Poll(1, None)), Tick(0.0)) == TakenOver(second)
  {
    var u := Step(Step(w, Tick(900.0)), Entered(1, second));
    assert u.callers == map[0 := Calling("0x1", 0.0, Claimed(0.0, 0, 0)), 1 := Calling(second, 900.0, Polling(900.0))];
    assert PickDonor(u.rows, u.callers[1], None) == None;
    assert Step(u, Poll(1, None)) == TakenOver(second);
  }

  lemma TakeoverRuns(second: string)
    ensures Exec(START, Takeover(second)) == TakenOver(second)
  {
    FirstClaim();
    var w := Step(Step(START, Entered(0, "0x1")), Poll(0, None));
    SecondClaim(w, second);
    var u := Step(Step(w, Tick(900.0)), Entered(1, second));
    ExecTwo(START, Entered(0, "0x1"), Poll(0, None));
    ExecTwo(w, Tick(900.0), Entered(1, second));
    ExecTwo(u, Poll(1, None), Tick(0.0));
    ExecAppend(START, [Entered(0, "0x1"), Poll(0, None)], [Tick(900.0), Entered(1, second)]);
    ExecAppend(START, [Entered(0, "0x1"), Poll(0, None)] + [Tick(900.0), Entered(1, second)],
        [Poll(1, None), Tick(0.0)]);
  }

  /** The first builder's failure lands after the takeover. */
  function LateFailure(deterministic: bool): seq<Event> {
    [BuilderRaises(0, "late", deterministic), FailureLands(0)]
  }

  lemma FailureLandsLate(w: World, deterministic: bool)
    requires 0 in w.callers && w.callers[0] == Calling("0x1", 0.0, Claimed(0.0, 0, 0)) && KEY in w.rows
    ensures
      var t := Exec(w, LateFailure(deterministic));
      && t.rows == w.rows[KEY :=
          Row(w.rows[KEY].address, w.rows[KEY].bundle, Failed, Some("late"), deterministic, None, Some("h"), 1)]
      && t.landings == w.landings[KEY := w.claims] && t.callers - {0} == w.callers - {0}
      && t.now == w.now && t.claims == w.claims && t.cfg == w.cfg
      && t.raises == w.raises + {Raise(KEY, "0x1", 1, Some("h"), "late", deterministic)}
  {
    ExecTwo(w, BuilderRaises(0, "late", deterministic), FailureLands(0));
    var t := Exec(w, LateFailure(deterministic));
    assert t.callers - {0} == w.callers - {0};
  }

  /** Splice a third part between the takeover and its continuation. */
  lemma Continue(second: string, run: seq<Event>, middle: seq<Event>, a: Event, b: Event, w: World)
    requires run == Takeover(second) + middle + [a, b] && w == Exec(TakenOver(second), middle)
    ensures Exec(START, run) == Step(Step(w, a), b)
  {
    TakeoverRuns(second);
    ExecAppend(START, Takeover(second), middle);
    ExecAppend(START, Takeover(second) + middle, [a, b]);
    ExecTwo(w, a, b);
  }

  lemma OneVersion(second: string, middle: seq<Event>, a: Event, b: Event)
    requires AtVersion(middle, 1) && EventAt(a, 1) && EventAt(b, 1)
    ensures AtVersion(Takeover(second) + middle + [a, b], 1)
  {
    forall e | e in Takeover(second) ensures EventAt(e, 1) {}
  }

  predicate OverlapTooEarly(w: World) {
    && 1 in w.callers && 2 in w.callers && IsBuilding(w.callers[1]) && IsBuilding(w.callers[2])
    && w.callers[1].key == w.callers[2].key && w.callers[1].phase.no < w.callers[2].phase.no
    && w.callers[2].phase.at < w.callers[1].phase.at + w.cfg.staleness
    && w.callers[2].phase.at < w.callers[2].entered + w.cfg.staleness
  }

  lemma ThirdClaim(taken: World)
    requires taken == TakenOver("0x1")
    ensures OverlapTooEarly(Step(Step(Exec(taken, LateFailure(false)), Entered(2, "0x1")), Poll(2, None)))
  {
    FailureLandsLate(taken, false);
    var w := Exec(taken, LateFailure(false));
    assert 1 in w.callers - {0} && (w.callers - {0})[1] == taken.callers[1] && 2 !in w.callers - {0};
    var u := Step(w, Entered(2, "0x1"));
    assert u.callers[2] == Calling("0x1", 900.0, Polling(900.0));
    assert PickDonor(u.rows, u.callers[2], None) == None;
  }

  /** A late failure reopens the key: a third caller claims at once beside the second, which is still building. */
  lemma LateFailureLetsBuildsOverlap() returns (run: seq<Event>)
    ensures AtVersion(run, 1) && OverlapTooEarly(Exec(START, run))
  {
    run := Takeover("0x1") + LateFailure(false) + [Entered(2, "0x1"), Poll(2, None)];
    OneVersion("0x1", LateFailure(false), Entered(2, "0x1"), Poll(2, None));
    ThirdClaim(TakenOver("0x1"));
    Continue("0x1", run, LateFailure(false), Entered(2, "0x1"), Poll(2, None),
        Exec(TakenOver("0x1"), LateFailure(false)));
  }

  lemma LateFinish(taken: World)
    requires taken == TakenOver("0x1")
    ensures
      var t := Step(Step(Exec(taken, LateFailure(true)), BuilderReturns(1, BUNDLE)), Finish(1));
      IsReady(t.rows, KEY, 1) && t.rows[KEY].deterministic
  {
    FailureLandsLate(taken, true);
    var w := Exec(taken, LateFailure(true));
    assert 1 in w.callers - {0} && (w.callers - {0})[1] == taken.callers[1];
  }

  /**
   A ready row may still carry the deterministic-failure flag of a build that lost: the flag is not part of the
   bundle.
   */
  lemma ReadyRowMayKeepFailureFlag() returns (run: seq<Event>)
    ensures AtVersion(run, 1) && IsReady(Exec(START, run).rows, KEY, 1) && Exec(START, run).rows[KEY].deterministic
  {
    run := Takeover("0x1") + LateFailure(true) + [BuilderReturns(1, BUNDLE), Finish(1)];
    LateFinish(TakenOver("0x1"));
    Continue("0x1", run, LateFailure(true), BuilderReturns(1, BUNDLE), Finish(1),
        Exec(TakenOver("0x1"), LateFailure(true)));
  }

  const FINISH: seq<Event> := [BuilderReturns(1, BUNDLE), Finish(1)]

  lemma TakenOverFinishes(taken: World)
    requires taken == TakenOver("0x1")
    ensures
      var done := Exec(taken, FINISH);
      && done.callers == map[0 := Calling("0x1", 0.0, Claimed(0.0, 0, 0)), 1 := Calling("0x1", 900.0, Refetching)]
      && KEY in done.rows && done.rows[KEY].address == "0x1"
  {
    ExecTwo(taken, BuilderReturns(1, BUNDLE), Finish(1));
  }

  lemma ReturnedFailed(taken: World)
    requires taken == TakenOver("0x1")
    ensures
      var t := Step(Step(Exec(taken, FINISH + LateFailure(true)), Refetch(1)), Tick(0.0));
      1 in t.callers && t.callers[1].phase.Returned? && t.callers[1].phase.row.status == Failed
  {
    TakenOverFinishes(taken);
    var done := Exec(taken, FINISH);
    FailureLandsLate(done, true);
    ExecAppend(taken, FINISH, LateFailure(true));
    var w := Exec(done, LateFailure(true));
    assert 1 in w.callers - {0} && (w.callers - {0})[1] == done.callers[1];
  }

  /** The row is read back after its transaction ended, so a call that wrote a ready row can return a failed one. */
  lemma FinishedCallMayReturnFailedRow() returns (run: seq<Event>)
    ensures AtVersion(run, 1)
    ensures
      var w := Exec(START, run);
      1 in w.callers && w.callers[1].phase.Returned? && w.callers[1].phase.row.status == Failed
  {
    run := Takeover("0x1") + (FINISH + LateFailure(true)) + [Refetch(1), Tick(0.0)];
    ReturnedFailed(TakenOver("0x1"));
    Continue("0x1", run, FINISH + LateFailure(true), Refetch(1), Tick(0.0),
        Exec(TakenOver("0x1"), FINISH + LateFailure(true)));
  }

  lemma RememberedElsewhere(taken: World)
    requires taken == TakenOver("0x2")
    ensures
      var t := Step(Step(Exec(taken, LateFailure(true)), Entered(2, "0x2")), Poll(2, None));
      && 2 in t.callers && t.callers[2].phase.Remembered? && t.callers[2].address == "0x2"
      && forall f | f in t.raises :: f.address == "0x1"
  {
    FailureLandsLate(taken, true);
    var w := Exec(taken, LateFailure(true));
    assert 2 !in w.callers - {0};
    var u := Step(w, Entered(2, "0x2"));
    assert u.callers[2] == Calling("0x2", 900.0, Polling(900.0));
  }

  /** A failure remembered for one address may be another's: it landed on a row that had been taken over. */
  lemma RememberedForAnotherAddress() returns (run: seq<Event>)
    ensures
      var t := Exec(START, run);
      && 2 in t.callers && t.callers[2].phase.Remembered? && t.callers[2].address == "0x2"
      && forall f | f in t.raises :: f.address == "0x1"
  {
    run := Takeover("0x2") + LateFailure(true) + [Entered(2, "0x2"), Poll(2, None)];
    RememberedElsewhere(TakenOver("0x2"));
    Continue("0x2", run, LateFailure(true), Entered(2, "0x2"), Poll(2, None),
        Exec(TakenOver("0x2"), LateFailure(true)));
  }
}
