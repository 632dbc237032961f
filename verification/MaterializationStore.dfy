/** The table's transactions in place, each proved against the step function the run theorems are about. */
module MaterializationStore {
  import opened Common
  import opened Materialization

  class Store {
    var rows: Table

    constructor ()
      ensures rows == map[]
    {
      rows := map[];
    }

    /** Any ready, current-version row with the caller's source hash, on any chain. */
    method FindReusable(c: Caller) returns (donor: Option<Key>)
      ensures DonorOk(rows, c, donor)
    {
      donor := None;
      if c.source.None? || c.source.value == "" {
        return;
      }
      var keys := rows.Keys;
      while keys != {}
        invariant keys <= rows.Keys
        invariant forall k | k in rows && k !in keys :: !Reusable(rows, c, k)
        decreases |keys|
      {
        var k :| k in keys;
        if rows[k].source == c.source && ReadyAt(rows[k], c.version) {
          return Some(k);
        }
        keys := keys - {k};
      }
    }

    /** One pass of the first phase under the key's lock: serve, remember, wait, copy or claim. */
    method PollOnce(cfg: Config, now: real, c: Caller, no: nat, landing: nat) returns (phase: Phase)
      modifies this
      ensures exists donor ::
        && DonorOk(old(rows), c, donor)
        && (rows, phase) == PollResult(cfg, old(rows), now, c, no, landing, donor)
      ensures phase.Polling? ==> now < c.entered + cfg.staleness && phase.wakeAt == now + cfg.poll
    {
      var donor := FindReusable(c);
      if c.key in rows {
        var row := rows[c.key];
        if row.status == Ready && row.version == c.version {
          return Returned(row);
        }
        if row.status == Failed && row.deterministic && row.version == c.version && row.address == c.address
           && row.source.Some? && row.source == c.source {
          return Remembered(RememberedError(row));
        }
        if row.status == Building {
          var age := if row.startedAt.Some? then now - row.startedAt.value else cfg.staleness + 1.0;
          if age < cfg.staleness && now < c.entered + cfg.staleness {
            return Polling(now + cfg.poll);
          }
        }
      }
      if AddressTaken(rows, c.key, c.address) {
        return Errored;
      }
      var flag := c.key in rows && rows[c.key].deterministic;
      var kept := if c.key in rows then rows[c.key].bundle else NO_BUNDLE;
      if donor.Some? {
        rows := rows[c.key := Row(c.address, rows[donor.value].bundle, Ready, None, flag, None, c.source, c.version)];
        phase := Refetching;
      } else {
        rows := rows[c.key := Row(c.address, kept, Building, None, false, Some(now), c.source, c.version)];
        phase := Claimed(now, no, landing);
      }
      assert (rows, phase) == PollResult(cfg, old(rows), now, c, no, landing, donor);
    }

    /** The failure write: no lock, no re-read, and neither the address nor the payload of a stored row moves. */
    method WriteFailure(c: Caller, error: string, deterministic: bool)
      modifies this
      ensures rows == old(rows)[c.key := FailedRow(old(rows), c, error, deterministic)]
      ensures c.key in old(rows) ==>
          rows[c.key].address == old(rows)[c.key].address && rows[c.key].bundle == old(rows)[c.key].bundle
    {
      if c.key in rows {
        rows := rows[c.key := rows[c.key].(status := Failed, error := Some(error), deterministic := deterministic,
                                           startedAt := None, source := c.source, version := c.version)];
      } else {
        rows := rows[c.key := Row(c.address, NO_BUNDLE, Failed, Some(error), deterministic, None, c.source, c.version)];
      }
    }

    /** The third phase under the key's lock. */
    method FinishBuild(c: Caller, bundle: Bundle) returns (phase: Phase)
      modifies this
      ensures (rows, phase) == FinishResult(old(rows), c, bundle)
    {
      if c.key in rows && rows[c.key].status == Ready && rows[c.key].version == c.version {
        return Returned(rows[c.key]);
      }
      if AddressTaken(rows, c.key, c.address) {
        return Errored;
      }
      if c.key in rows {
        rows := rows[c.key := rows[c.key].(address := c.address, bundle := bundle, status := Ready, error := None,
                                           startedAt := None, source := c.source, version := c.version)];
      } else {
        rows := rows[c.key := Row(c.address, bundle, Ready, None, false, None, c.source, c.version)];
      }
      return Refetching;
    }

    /** Publish an already-built bundle; a ready row's address never changes and only a write touches the table. */
    method PublishBundle(o: Offer) returns (outcome: PublishOutcome)
      modifies this
      ensures outcome == PublishDecision(old(rows), o) && rows == PublishResult(old(rows), o)
      ensures outcome !in {Written, Refreshed} ==> rows == old(rows)
      ensures IsReady(old(rows), o.key, o.version) ==> rows[o.key].address == old(rows)[o.key].address
      ensures outcome in {Written, Refreshed} ==> rows[o.key].bundle == o.bundle && IsReady(rows, o.key, o.version)
    {
      if o.bundle.analysis.None? || o.bundle.plan.None? || o.semanticFailure {
        return Incomplete;
      }
      outcome := Written;
      if IsReady(rows, o.key, o.version) {
        if rows[o.key].address != o.address {
          return KeccakBoundElsewhere;
        }
        if !o.refreshOnDiffer || !Differs(rows[o.key], o.bundle) {
          return AlreadyCurrent;
        }
        outcome := Refreshed;
      }
      if AddressTaken(rows, o.key, o.address) {
        return AddressBoundElsewhere;
      }
      var flag := o.key in rows && rows[o.key].deterministic;
      rows := rows[o.key := Row(o.address, o.bundle, Ready, None, flag, None, o.source, o.version)];
    }
  }
}
