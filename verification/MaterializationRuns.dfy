/** What every interleaving of callers, takeovers, late failures, donor copies and publishes keeps. */
module MaterializationRuns {
  import opened Common
  import opened Materialization

  /** A ready row is one whole production: for its own key, or of the same known source. */
  ghost predicate Whole(productions: set<Production>, key: Key, row: Row) {
    && row.error.None? && row.startedAt.None?
    && exists p | p in productions ::
         && p.bundle == row.bundle && p.version == row.version && p.source == row.source
         && (p.key == key || (row.source.Some? && row.source.value != ""))
  }

  /** A failed row's error, flag, hash and version come from one and the same failing build of its key. */
  ghost predicate OneFailure(raises: set<Raise>, key: Key, row: Row) {
    exists f | f in raises ::
      && f.key == key && f.version == row.version && f.source == row.source
      && row.error == Some(f.error) && f.deterministic == row.deterministic
  }

  ghost predicate RowExplained(w: World, key: Key, row: Row) {
    && (row.status == Ready ==> Whole(w.productions, key, row))
    && (row.status == Failed ==> OneFailure(w.raises, key, row))
  }

  ghost predicate ReallyFailed(raises: set<Raise>, c: Caller) {
    exists f | f in raises :: f.key == c.key && f.version == c.version && c.source.Some? && f.source == c.source
        && f.deterministic
  }

  ghost predicate CallerExplained(w: World, c: Caller) {
    match c.phase
    case Built(bundle) => Production(c.key, c.version, bundle, c.source) in w.productions
    case Raising(error, deterministic) => Raise(c.key, c.address, c.version, c.source, error, deterministic) in w.raises
    case Returned(row) => RowExplained(w, c.key, row)
    case Remembered(_) => ReallyFailed(w.raises, c)
    case _ => true
  }

  ghost predicate Explained(w: World) {
    && (forall k | k in w.rows :: RowExplained(w, k, w.rows[k]))
    && (forall id | id in w.callers :: CallerExplained(w, w.callers[id]))
  }

  lemma PollExplains(w: World, id: nat, prefer: Option<Key>)
    requires Explained(w) && id in w.callers
    ensures Explained(Polled(w, id, prefer))
  {
    var c := w.callers[id];
    var donor := PickDonor(w.rows, c, prefer);
    var r := PollResult(w.cfg, w.rows, w.now, c, w.claims, Landing(w, c.key), donor);
    if donor.Some? {
      assert RowExplained(w, donor.value, w.rows[donor.value]);
    }
    if c.key in w.rows {
      assert RowExplained(w, c.key, w.rows[c.key]);
    }
    forall k | k in r.0 ensures RowExplained(w, k, r.0[k]) {}
  }

  lemma FinishExplains(w: World, id: nat)
    requires Explained(w)
    ensures Explained(Step(w, Finish(id)))
  {
    if id in w.callers && w.callers[id].phase.Built? {
      assert CallerExplained(w, w.callers[id]);
    }
  }

  lemma FailExplains(w: World, e: Event)
    requires Explained(w) && !e.Poll? && !e.Publish? && !e.Finish?
    ensures Explained(Step(w, e))
  {}

  lemma StepExplains(w: World, e: Event)
    requires Explained(w)
    ensures Explained(Step(w, e))
  {
    match e {
      case Poll(id, prefer) =>
        if id in w.callers {
          PollExplains(w, id, prefer);
        }
      case Publish(o) => PublishExplains(w, o);
      case Finish(id) => FinishExplains(w, id);
      case _ => FailExplains(w, e);
    }
  }

  lemma PublishExplains(w: World, o: Offer)
    requires Explained(w)
    ensures Explained(Step(w, Publish(o)))
  {}

  /**
   In every interleaving: a ready row holds one whole bundle from a single build or publish at its version,
   for its key or for the same source; a failed row describes one failing build; what a caller got back is
   such a row; and a remembered failure is raised only if a builder run for this key with the caller's source
   hash and version really raised a deterministic failure.
   */
  lemma {:induction false} EveryRunIsExplained(w: World, run: seq<Event>)
    requires Explained(w)
    ensures Explained(Exec(w, run))
    decreases |run|
  {
    if run != [] {
      StepExplains(w, run[0]);
      EveryRunIsExplained(Step(w, run[0]), run[1..]);
    }
  }

  /** A deterministic failure of a build of this address, source hash and version. */
  ghost predicate FailedAt(raises: set<Raise>, key: Key, address: string, version: nat, source: Option<string>) {
    exists f | f in raises ::
      f.key == key && f.address == address && f.version == version && f.source == source && f.deterministic
  }

  /** Every remembered failure is one of the caller's own address. */
  ghost predicate RememberedAreOwn(w: World) {
    forall id | id in w.callers && w.callers[id].phase.Remembered? ::
      var c := w.callers[id];
      FailedAt(w.raises, c.key, c.address, c.version, c.source)
  }

  /** Every failed row that can be remembered is matched by a failure of the address it names. */
  ghost predicate RowsAreOwn(w: World) {
    forall k | k in w.rows && w.rows[k].status == Failed && w.rows[k].deterministic && w.rows[k].source.Some? ::
      FailedAt(w.raises, k, w.rows[k].address, w.rows[k].version, w.rows[k].source)
  }

  /**
   If this event lands a failure on a row, nobody can remember it, or the address the row names has had such a
   failure itself.
   */
  ghost predicate Harmless(w: World, e: Event) {
    e.FailureLands? && e.id in w.callers && w.callers[e.id].phase.Raising? && w.callers[e.id].key in w.rows ==>
      var c := w.callers[e.id];
      || !c.phase.deterministic
      || c.source.None?
      || FailedAt(w.raises, c.key, w.rows[c.key].address, c.version, c.source)
  }

  ghost predicate AllHarmless(w: World, run: seq<Event>)
    decreases |run|
  {
    run == [] || (Harmless(w, run[0]) && AllHarmless(Step(w, run[0]), run[1..]))
  }

  lemma MoreRaises(w: World, t: World)
    requires w.raises <= t.raises && t.rows == w.rows && RowsAreOwn(w)
    ensures RowsAreOwn(t)
  {
    forall k | k in t.rows && t.rows[k].status == Failed && t.rows[k].deterministic && t.rows[k].source.Some?
      ensures FailedAt(t.raises, k, t.rows[k].address, t.rows[k].version, t.rows[k].source)
    {
      assert FailedAt(w.raises, k, w.rows[k].address, w.rows[k].version, w.rows[k].source);
    }
  }

  lemma LandingKeepsOwn(w: World, id: nat)
    requires Explained(w) && RememberedAreOwn(w) && RowsAreOwn(w) && Harmless(w, FailureLands(id))
    ensures RememberedAreOwn(Step(w, FailureLands(id))) && RowsAreOwn(Step(w, FailureLands(id)))
  {
    if id in w.callers && w.callers[id].phase.Raising? {
      assert CallerExplained(w, w.callers[id]);
    }
  }

  lemma PollKeepsOwn(w: World, id: nat, prefer: Option<Key>)
    requires RememberedAreOwn(w) && RowsAreOwn(w) && id in w.callers
    ensures RememberedAreOwn(Polled(w, id, prefer)) && RowsAreOwn(Polled(w, id, prefer))
  {}

  lemma StepKeepsOwn(w: World, e: Event)
    requires Explained(w) && RememberedAreOwn(w) && RowsAreOwn(w) && Harmless(w, e)
    ensures RememberedAreOwn(Step(w, e)) && RowsAreOwn(Step(w, e))
  {
    if e.FailureLands? {
      LandingKeepsOwn(w, e.id);
    } else if e.Poll? && e.id in w.callers {
      PollKeepsOwn(w, e.id, e.prefer);
    } else if e.BuilderRaises? {
      MoreRaises(w, Step(w, e));
    }
  }

  /** While every landing is harmless, every remembered failure is one of the caller's own address. */
  lemma {:induction false} HarmlessRunsRememberOwn(w: World, run: seq<Event>)
    requires Explained(w) && RememberedAreOwn(w) && RowsAreOwn(w) && AllHarmless(w, run)
    ensures RememberedAreOwn(Exec(w, run)) && RowsAreOwn(Exec(w, run))
    decreases |run|
  {
    if run != [] {
      StepExplains(w, run[0]);
      StepKeepsOwn(w, run[0]);
      HarmlessRunsRememberOwn(Step(w, run[0]), run[1..]);
    }
  }

  /** A new caller for the row's address, source hash and version meets the landed failure at once. */
  lemma HarmIsRemembered(w: World, id: nat, other: nat)
    requires !Harmless(w, FailureLands(id)) && other !in w.callers
    ensures
      var c, t := w.callers[id], Step(w, FailureLands(id));
      var enter := Enter(other, c.key, w.rows[c.key].address, c.version, c.source);
      var u := Step(Step(t, enter), Poll(other, None));
      && Harmless(t, enter) && Harmless(Step(t, enter), Poll(other, None)) && !RememberedAreOwn(u)
  {
    var c, t := w.callers[id], Step(w, FailureLands(id));
    var enter := Enter(other, c.key, w.rows[c.key].address, c.version, c.source);
    var u := Step(Step(t, enter), Poll(other, None));
    assert other in u.callers && u.callers[other].phase.Remembered? && u.raises == w.raises;
  }

  lemma TwoSteps(w: World, a: Event, b: Event)
    requires Harmless(w, a) && Harmless(Step(w, a), b)
    ensures AllHarmless(w, [a, b]) && Exec(w, [a, b]) == Step(Step(w, a), b)
  {
    var u, t := Step(w, a), Step(Step(w, a), b);
    var none: seq<Event> := [b][1..];
    assert [a, b][1..] == [b];
    assert AllHarmless(t, none) && Exec(t, none) == t;
    assert AllHarmless(u, [b]) && Exec(u, [b]) == t;
  }

  /**
   The exact condition: a failure that lands is harmless if and only if, as long as later landings are harmless,
   every failure remembered from then on is one of the caller's own address.
   */
  lemma OwnIfAndOnlyIfHarmless(w: World, id: nat)
    requires Explained(w) && RememberedAreOwn(w) && RowsAreOwn(w)
    ensures
      var t := Step(w, FailureLands(id));
      Harmless(w, FailureLands(id)) <==> forall run | AllHarmless(t, run) :: RememberedAreOwn(Exec(t, run))
  {
    var t := Step(w, FailureLands(id));
    if Harmless(w, FailureLands(id)) {
      StepExplains(w, FailureLands(id));
      LandingKeepsOwn(w, id);
      forall run | AllHarmless(t, run) ensures RememberedAreOwn(Exec(t, run)) {
        HarmlessRunsRememberOwn(t, run);
      }
    } else {
      var other := LargerThanAll(w.callers.Keys);
      HarmIsRemembered(w, id, other);
      var c := w.callers[id];
      var enter := Enter(other, c.key, w.rows[c.key].address, c.version, c.source);
      TwoSteps(t, enter, Poll(other, None));
      assert !RememberedAreOwn(Exec(t, [enter, Poll(other, None)]));
    }
  }
}
