/** The lifecycle row and the audit rows it guards, updated in place by one transaction at a time. */
module WorkerLifecycle {
  import opened Common
  import opened WorkerGate

  datatype Status = Pending | Processing | Settled

  /** A missing gate row raises; a claim that is not allowed takes nothing. */
  datatype Claims = NoGate | Took(ids: seq<nat>)

  class Lifecycle {
    var row: Option<Row>
    var heartbeat: real
    var audits: map<nat, Status>
    ghost var history: seq<Entry>

    /** The row, while there is one, is open to exactly the boots that are live. */
    ghost predicate Valid()
      reads this
    {
      row.Some? ==> Agrees(row, history)
    }

    constructor ()
      ensures Valid() && row.Some? && audits == map[] && forall b :: !Live(history, b)
    {
      row, heartbeat, audits, history := Some(Row(Stopped, None)), 0.0, map[], [];
      new;
      assert forall b :: !Live(history, b);
    }

    /** Claim the rows the pending query returned: all of them for a live boot or an unmanaged process, else none. */
    method ClaimBatch(boot: Option<Boot>, found: seq<nat>) returns (claims: Claims)
      requires Valid() && forall id | id in found :: id in audits && audits[id] == Pending
      modifies this`audits
      ensures claims.NoGate? <==> boot.Some? && row.None?
      ensures claims.Took? ==> claims.ids == if boot.None? || Live(history, boot.value) then found else []
      ensures audits.Keys == old(audits).Keys
      ensures forall id | id in audits :: audits[id] == if claims.Took? && id in claims.ids then Processing
          else old(audits)[id]
    {
      if boot.Some? {
        if row.None? {
          return NoGate;
        }
        assert Allowed(row.value, boot.value) <==> Live(history, boot.value);
        if row.value.phase != Running || row.value.boot != boot {
          return Took([]);
        }
      }
      for i := 0 to |found|
        invariant audits.Keys == old(audits).Keys
        invariant forall id | id in audits :: audits[id] == if id in found[..i] then Processing else old(audits)[id]
      {
        assert found[i] in found;
        audits := audits[found[i] := Processing];
        assert found[..i + 1] == found[..i] + [found[i]];
      }
      assert found[..|found|] == found;
      return Took(found);
    }

    /** The admin's and the controller's drain: afterwards no boot is live and the gate is open to none. */
    method DrainBoot()
      requires Valid()
      modifies this`row, this`history
      ensures Valid() && (row.Some? <==> old(row).Some?)
      ensures row.Some? ==> forall b :: !Live(history, b) && !Allowed(row.value, b)
      ensures row.None? ==> history == old(history)
    {
      if row.Some? {
        CommitAgrees(row.value, history, Drain);
        row := Some(Row(Draining, row.value.boot));
        history := history + [Drained];
      }
    }

    /** Registering makes this boot, and no other, the live one. */
    method RegisterBoot(boot: Boot)
      requires Valid()
      modifies this`row, this`history
      ensures Valid() && (row.Some? <==> old(row).Some?)
      ensures row.Some? ==> forall b :: (Live(history, b) <==> b == boot) && (Allowed(row.value, b) <==> b == boot)
      ensures row.None? ==> history == old(history)
    {
      if row.Some? {
        CommitAgrees(row.value, history, Register(boot));
        row := Some(Row(Running, Some(boot)));
        history := history + [Registered(boot)];
      }
    }

    /** Finishing ends this boot and leaves any other as live as it was. */
    method FinishBoot(boot: Boot)
      requires Valid()
      modifies this`row, this`history
      ensures Valid() && (row.Some? <==> old(row).Some?)
      ensures row.Some? ==> !Live(history, boot) && forall b | b != boot :: Live(history, b) <==> old(Live(history, b))
      ensures row.None? ==> history == old(history)
    {
      if row.Some? {
        CommitAgrees(row.value, history, Finish(boot));
        forall b ensures Live(history + [Finished(boot)], b) <==> b != boot && Live(history, b) {
          LiveAfterEntry(history, Finished(boot), b);
        }
        if row.value.boot == Some(boot) {
          row := Some(Row(Stopped, row.value.boot));
        }
        history := history + [Finished(boot)];
      }
    }

    /**
     The boot's phase, or nothing when the row names another boot. The heartbeat is refreshed unless a claim holds
     the row, which is read all the same.
     */
    method BootPhase(boot: Boot, locked: bool, now: real) returns (phase: Option<Phase>)
      modifies this`heartbeat
      ensures phase.Some? <==> row.Some? && row.value.boot == Some(boot)
      ensures phase.Some? ==> phase.value == row.value.phase
      ensures heartbeat == if phase.Some? && !locked then now else old(heartbeat)
    {
      phase := None;
      if !locked && row.Some? && row.value.boot == Some(boot) {
        heartbeat := now;
        phase := Some(row.value.phase);
      }
      if phase.None? && row.Some? && row.value.boot == Some(boot) {
        phase := Some(row.value.phase);
      }
    }
  }
}
