/** What a call and a publish get: which way out of the loop, and whose bundle. */
module MaterializationCalls {
  import opened Common
  import opened Materialization
  import H = MaterializationHistory

  /** Another key of the chain holds this address. */
  ghost predicate HeldElsewhere(rows: Table, key: Key, address: string) {
    exists other :: other in rows && other != key && other.chain == key.chain && rows[other].address == address
  }

  /** A woken caller whose key is ready at its version is given exactly that row, and writes nothing. */
  lemma ReadyRowIsReturned(w: World, id: nat, prefer: Option<Key>)
    requires H.Wakes(w, id) && IsReady(w.rows, w.callers[id].key, w.callers[id].version)
    ensures
      var t := Step(w, Poll(id, prefer));
      t.callers[id].phase == Returned(w.rows[w.callers[id].key]) && t.rows == w.rows
  {}

  /** A deterministic failure of the caller's address, source hash and version is raised again, with its error. */
  lemma FailureIsRemembered(w: World, id: nat, prefer: Option<Key>)
    requires H.Wakes(w, id)
    ensures
      var c, t := w.callers[id], Step(w, Poll(id, prefer));
      && (t.callers[id].phase.Remembered? <==>
            && c.key in w.rows && w.rows[c.key].status == Failed && w.rows[c.key].deterministic
            && w.rows[c.key].version == c.version && w.rows[c.key].address == c.address
            && c.source.Some? && w.rows[c.key].source == c.source)
      && (t.callers[id].phase.Remembered? ==> t.rows == w.rows)
      && (t.callers[id].phase.Remembered? && w.rows[c.key].error.Some? && w.rows[c.key].error.value != "" ==>
            t.callers[id].phase.error == w.rows[c.key].error.value)
  {}

  /** A caller waits one more interval exactly while it meets a young claim and its own deadline has not passed. */
  lemma YoungClaimIsAwaited(w: World, id: nat, prefer: Option<Key>)
    requires H.Wakes(w, id)
    ensures
      var c, t := w.callers[id], Step(w, Poll(id, prefer));
      && (t.callers[id].phase.Polling? <==>
            && c.key in w.rows && w.rows[c.key].status == Building && w.rows[c.key].startedAt.Some?
            && w.now < w.rows[c.key].startedAt.value + w.cfg.staleness && w.now < c.entered + w.cfg.staleness)
      && (t.callers[id].phase.Polling? ==> t.callers[id].phase.wakeAt == w.now + w.cfg.poll && t.rows == w.rows)
  {}

  /** A poll errs only if another key of the chain holds the caller's address. */
  lemma ErrorNeedsATakenAddress(w: World, id: nat, prefer: Option<Key>)
    requires H.Wakes(w, id) && Step(w, Poll(id, prefer)).callers[id].phase.Errored?
    ensures HeldElsewhere(w.rows, w.callers[id].key, w.callers[id].address) && Step(w, Poll(id, prefer)).rows == w.rows
  {
    var key, address := w.callers[id].key, w.callers[id].address;
    var k :| k in w.rows && k != key && k.chain == key.chain && w.rows[k].address == address;
  }

  /** Otherwise a caller whose source is ready anywhere copies it, and any other claims its key. */
  lemma FreeKeyIsCopiedOrClaimed(w: World, id: nat, prefer: Option<Key>)
    requires H.Wakes(w, id)
    requires !HeldElsewhere(w.rows, w.callers[id].key, w.callers[id].address)
    requires
      var c := w.callers[id];
      c.key in w.rows ==>
        && !ReadyAt(w.rows[c.key], c.version) && !Remembers(w.rows[c.key], c)
        && !MustWait(w.cfg, w.rows[c.key], w.now, c)
    ensures
      var c, t := w.callers[id], Step(w, Poll(id, prefer));
      if exists k | k in w.rows :: Reusable(w.rows, c, k) then t.callers[id].phase.Refetching?
      else t.callers[id].phase == Claimed(w.now, w.claims, Landing(w, c.key))
  {
    assert !AddressTaken(w.rows, w.callers[id].key, w.callers[id].address);
  }

  // ----- a call with its key to itself -----

  /** The event neither moves this call nor touches its key. */
  predicate Away(w: World, e: Event, id: nat, key: Key) {
    match e
    case Tick(_) => true
    case Publish(o) => o.key != key
    case Poll(i, _) => i != id && (i in w.callers ==> w.callers[i].key != key)
    case Finish(i) => i != id && (i in w.callers ==> w.callers[i].key != key)
    case FailureLands(i) => i != id && (i in w.callers ==> w.callers[i].key != key && w.callers[i].key in w.rows)
    case _ => e.id != id
  }

  ghost predicate AllAway(w: World, run: seq<Event>, id: nat, key: Key)
    decreases |run|
  {
    run == [] || (Away(w, run[0], id, key) && AllAway(Step(w, run[0]), run[1..], id, key))
  }

  /** The call's row, and its hold on its address. */
  predicate Holds(w: World, key: Key, row: Row) {
    key in w.rows && w.rows[key] == row && !AddressTaken(w.rows, key, row.address)
  }

  /** No other key of the chain comes to hold the address while this one does. */
  lemma AwayTakesNothing(w: World, e: Event, id: nat, key: Key, row: Row, k: Key)
    requires Away(w, e, id, key) && Holds(w, key, row)
    requires k in Step(w, e).rows && k != key && k.chain == key.chain
    ensures Step(w, e).rows[k].address != row.address
  {
    assert AddressTaken(w.rows, k, row.address);
  }

  lemma AwayLeavesRow(w: World, e: Event, id: nat, key: Key)
    requires id in w.callers && Away(w, e, id, key) && key in w.rows
    ensures
      var t := Step(w, e);
      id in t.callers && t.callers[id] == w.callers[id] && key in t.rows && t.rows[key] == w.rows[key]
  {}

  lemma AwayKeeps(w: World, e: Event, id: nat, key: Key, row: Row)
    requires id in w.callers && Away(w, e, id, key) && Holds(w, key, row)
    ensures
      var t := Step(w, e);
      id in t.callers && t.callers[id] == w.callers[id] && Holds(t, key, row)
  {
    var t := Step(w, e);
    AwayLeavesRow(w, e, id, key);
    forall k | k in t.rows && k != key && k.chain == key.chain ensures t.rows[k].address != row.address {
      AwayTakesNothing(w, e, id, key, row, k);
    }
  }

  lemma {:induction false} AllAwayKeeps(w: World, run: seq<Event>, id: nat, key: Key, row: Row)
    requires id in w.callers && AllAway(w, run, id, key) && Holds(w, key, row)
    ensures
      var t := Exec(w, run);
      id in t.callers && t.callers[id] == w.callers[id] && Holds(t, key, row)
    decreases |run|
  {
    if run != [] {
      AwayKeeps(w, run[0], id, key, row);
      AllAwayKeeps(Step(w, run[0]), run[1..], id, key, row);
    }
  }

  /** The row is ready with this bundle, for this caller. */
  predicate ReadyFor(row: Row, c: Caller, bundle: Bundle) {
    && row.status == Ready && row.bundle == bundle && row.address == c.address && row.source == c.source
    && row.version == c.version && row.error.None? && row.startedAt.None?
  }

  lemma ClaimHolds(w: World, id: nat, prefer: Option<Key>)
    requires H.Wakes(w, id) && Step(w, Poll(id, prefer)).callers[id].phase.Claimed?
    ensures
      var c, t := w.callers[id], Step(w, Poll(id, prefer));
      && c.key in t.rows && Holds(t, c.key, t.rows[c.key]) && t.rows[c.key].address == c.address
      && t.rows[c.key].status == Building && t.callers[id] == c.(phase := t.callers[id].phase)
  {}

  lemma FinishHolds(w: World, id: nat)
    requires id in w.callers && w.callers[id].phase.Built? && w.callers[id].key in w.rows
    requires Holds(w, w.callers[id].key, w.rows[w.callers[id].key])
    requires w.rows[w.callers[id].key].status == Building && w.rows[w.callers[id].key].address == w.callers[id].address
    ensures
      var c, t := w.callers[id], Step(w, Finish(id));
      && c.key in t.rows && Holds(t, c.key, t.rows[c.key]) && ReadyFor(t.rows[c.key], c, c.phase.bundle)
      && t.callers[id] == c.(phase := Refetching)
  {}

  /**
   A call that claims its key, builds and finishes, with anything else going on away from that key, returns its own
   bundle under its own address, source hash and version.
   */
  lemma OwnBuildIsReturned(
    w: World, id: nat, prefer: Option<Key>, bundle: Bundle, first: seq<Event>, second: seq<Event>, third: seq<Event>)
    requires H.Wakes(w, id) && Step(w, Poll(id, prefer)).callers[id].phase.Claimed?
    requires
      var claimed := Exec(Step(w, Poll(id, prefer)), first);
      var built := Exec(Step(claimed, BuilderReturns(id, bundle)), second);
      && AllAway(Step(w, Poll(id, prefer)), first, id, w.callers[id].key)
      && AllAway(Step(claimed, BuilderReturns(id, bundle)), second, id, w.callers[id].key)
      && AllAway(Step(built, Finish(id)), third, id, w.callers[id].key)
    ensures
      var claimed := Exec(Step(w, Poll(id, prefer)), first);
      var built := Exec(Step(claimed, BuilderReturns(id, bundle)), second);
      var t := Step(Exec(Step(built, Finish(id)), third), Refetch(id));
      && id in t.callers && t.callers[id].phase.Returned? && ReadyFor(t.callers[id].phase.row, w.callers[id], bundle)
  {
    var c := w.callers[id];
    ClaimHolds(w, id, prefer);
    var start := Step(w, Poll(id, prefer));
    AllAwayKeeps(start, first, id, c.key, start.rows[c.key]);
    var returned := Step(Exec(start, first), BuilderReturns(id, bundle));
    AllAwayKeeps(returned, second, id, c.key, start.rows[c.key]);
    var built := Exec(returned, second);
    FinishHolds(built, id);
    var finished := Step(built, Finish(id));
    AllAwayKeeps(finished, third, id, c.key, finished.rows[c.key]);
  }

  /** A call that copies a donor returns the donor's bundle, under its own address, source hash and version. */
  lemma DonorsBundleIsReturned(w: World, id: nat, prefer: Option<Key>, run: seq<Event>) returns (donor: Key)
    requires H.Wakes(w, id) && Step(w, Poll(id, prefer)).callers[id].phase.Refetching?
    requires AllAway(Step(w, Poll(id, prefer)), run, id, w.callers[id].key)
    ensures Reusable(w.rows, w.callers[id], donor)
    ensures
      var t := Step(Exec(Step(w, Poll(id, prefer)), run), Refetch(id));
      && id in t.callers && t.callers[id].phase.Returned?
      && ReadyFor(t.callers[id].phase.row, w.callers[id], w.rows[donor].bundle)
  {
    var c := w.callers[id];
    donor := PickDonor(w.rows, c, prefer).value;
    var start := Step(w, Poll(id, prefer));
    assert Holds(start, c.key, start.rows[c.key]);
    AllAwayKeeps(start, run, id, c.key, start.rows[c.key]);
  }

  /** A build that finds its key ready serves that row and writes nothing; it errs only over a taken address. */
  lemma FinishYields(w: World, id: nat)
    requires id in w.callers && w.callers[id].phase.Built?
    ensures
      var c, t := w.callers[id], Step(w, Finish(id));
      && (IsReady(w.rows, c.key, c.version) ==> t.callers[id].phase == Returned(w.rows[c.key]) && t.rows == w.rows)
      && (t.callers[id].phase.Errored? ==> HeldElsewhere(w.rows, c.key, c.address) && t.rows == w.rows)
  {
    var c := w.callers[id];
    if AddressTaken(w.rows, c.key, c.address) {
      var k :| k in w.rows && k != c.key && k.chain == c.key.chain && w.rows[k].address == c.address;
    }
  }

  /** A failing build errs; its row carries the failure and keeps the address and payload it had. */
  lemma FailureIsRecorded(w: World, id: nat)
    requires id in w.callers && w.callers[id].phase.Raising?
    ensures
      var c, t := w.callers[id], Step(w, FailureLands(id));
      && t.callers[id].phase.Errored? && c.key in t.rows && t.rows == w.rows[c.key := t.rows[c.key]]
      && var row := t.rows[c.key];
         && row.status == Failed && row.error == Some(c.phase.error) && row.deterministic == c.phase.deterministic
         && row.source == c.source && row.version == c.version && row.startedAt.None?
         && (c.key in w.rows ==> row.address == w.rows[c.key].address && row.bundle == w.rows[c.key].bundle)
         && (c.key !in w.rows ==> row.address == c.address)
  {}

  /** The next call for the same address, source and version is told a deterministic failure without a build. */
  lemma NextCallIsTold(w: World, id: nat, next: nat, error: string, prefer: Option<Key>)
    requires id in w.callers && w.callers[id].phase.Claimed? && w.callers[id].source.Some? && error != ""
    requires w.callers[id].key in w.rows ==> w.rows[w.callers[id].key].address == w.callers[id].address
    requires H.Wakes(w, next) && next != id
    requires
      var a, b := w.callers[id], w.callers[next];
      a.key == b.key && a.address == b.address && a.version == b.version && a.source == b.source
    ensures
      var t := Step(Step(Step(w, BuilderRaises(id, error, true)), FailureLands(id)), Poll(next, prefer));
      t.callers[id].phase.Errored? && t.callers[next].phase == Remembered(error)
  {}

  // ----- publishing -----

  /** The offer's payloads differ from the row's. */
  predicate NewPayload(row: Row, bundle: Bundle) {
    row.bundle.analysis != bundle.analysis || row.bundle.plan != bundle.plan || row.bundle.trees != bundle.trees
  }

  /** When an offer is written, and why it is not. */
  lemma PublishOutcomes(w: World, o: Offer)
    ensures
      var outcome := PublishDecision(w.rows, o);
      var ready := o.key in w.rows && w.rows[o.key].status == Ready && w.rows[o.key].version == o.version;
      var whole := o.bundle.analysis.Some? && o.bundle.plan.Some? && !o.semanticFailure;
      && (outcome == Incomplete <==> !whole)
      && (outcome == KeccakBoundElsewhere <==> whole && ready && w.rows[o.key].address != o.address)
      && (outcome == AlreadyCurrent <==>
            && whole && ready && w.rows[o.key].address == o.address
            && !(o.refreshOnDiffer && NewPayload(w.rows[o.key], o.bundle)))
      && (outcome == AddressBoundElsewhere ==> HeldElsewhere(w.rows, o.key, o.address))
      && (outcome == Refreshed ==> ready && o.refreshOnDiffer && NewPayload(w.rows[o.key], o.bundle))
      && (outcome == Written ==> !ready)
      && (outcome == Written || outcome == Refreshed ==> whole && !HeldElsewhere(w.rows, o.key, o.address))
  {
    var rows := w.rows;
    if AddressTaken(rows, o.key, o.address) {
      var k :| k in rows && k != o.key && k.chain == o.key.chain && rows[k].address == o.address;
    }
  }

  /** A written offer is the row from then on; any other leaves the table as it is. */
  lemma PublishWrites(w: World, o: Offer)
    ensures
      var t, outcome := Step(w, Publish(o)), PublishDecision(w.rows, o);
      && (outcome == Written || outcome == Refreshed ==>
            && o.key in t.rows && t.rows[o.key].status == Ready && t.rows[o.key].bundle == o.bundle
            && t.rows[o.key].address == o.address && t.rows[o.key].source == o.source
            && t.rows[o.key].version == o.version
            && t.rows == w.rows[o.key := t.rows[o.key]])
      && (outcome != Written && outcome != Refreshed ==> t == w)
  {}
}
