/** The limiter's atomic stretches of code in place, each proved to be one step of the run model. */
module CompanyReadLimiter {
  import opened CompanyReadLimit

  class Limiter {
    const limit: nat
    const capacity: nat
    var free: nat
    var admitted: int
    var requests: map<nat, Request>
    ghost var ledger: map<nat, Ledger>

    ghost function View(): State
      reads this
    {
      State(limit, capacity, free, admitted, requests, ledger)
    }

    constructor (active: nat, queued: nat)
      ensures View() == Initial(active, queued)
    {
      limit, capacity, free, admitted, requests, ledger := active, active + queued, active, 0, map[], map[];
    }

    /** Entry of a matching request: rejected as busy, started at once, or queued. */
    method Arrive(id: nat, sawLocked: bool) returns (busy: bool)
      requires id !in ledger
      modifies this
      ensures View() == Step(old(View()), Event.Arrive(id, sawLocked))
      ensures busy <==> old(admitted) >= capacity
    {
      if admitted >= capacity {
        return true;
      }
      admitted := admitted + 1;
      if !sawLocked && free > 0 {
        free := free - 1;
        requests, ledger := requests[id := Request(Running, [], [], [], [])], ledger[id := Ledger(1, 0)];
      } else {
        requests, ledger := requests[id := Request(Waiting(false, false), [], [], [], [])], ledger[id := Ledger(0, 0)];
      }
      return false;
    }

    /** The wait of a queued request returned. */
    method Leave(id: nat)
      requires id in ledger && id in requests && requests[id].phase.Waiting?
      modifies this
      ensures View() == Step(old(View()), Event.Leave(id))
    {
      var r := requests[id];
      var end := if r.phase.gone then Left else if r.phase.held then Won else TimedOut;
      requests := requests[id := r.(phase := Cleanup(end, r.phase.held))];
    }

    /** The cleanup after the wait ended normally; true starts the handler. */
    method CleanedUp(id: nat) returns (acquired: bool)
      requires id in ledger && id in requests && requests[id].phase.Cleanup?
      modifies this
      ensures View() == Step(old(View()), Event.CleanedUp(id))
      ensures acquired <==> id in requests && requests[id].phase == Running
    {
      var p := requests[id].phase;
      acquired := p.end == Won;
      if acquired {
        requests := requests[id := requests[id].(phase := Running)];
        return;
      }
      if p.held {
        Release(id);
      }
      if p.end == TimedOut {
        requests := requests[id := requests[id].(phase := Rejecting)];
      } else {
        admitted, requests := admitted - 1, requests - {id};
      }
    }

    method Release(id: nat)
      requires id in ledger
      modifies this
      ensures View() == Released(old(View()), id)
    {
      free := free + 1;
      ledger := ledger[id := ledger[id].(returned := ledger[id].returned + 1)];
    }

    /** The caller of a request that is not running yet is cancelled. */
    method Cancel(id: nat)
      requires id in ledger && id in requests && requests[id].phase != Running
      modifies this
      ensures View() == Step(old(View()), Event.Cancel(id))
    {
      var r := requests[id];
      if r.phase.Waiting? {
        requests := requests[id := r.(phase := Cleanup(Aborted, r.phase.held))];
        return;
      }
      if r.phase.Cleanup? && r.phase.held {
        Release(id);
      }
      admitted, requests := admitted - 1, requests - {id};
    }

    /** The handler task is done, whether or not its caller is still there. */
    method Finished(id: nat)
      requires id in ledger && id in requests && requests[id].phase == Running
      modifies this
      ensures View() == Step(old(View()), Event.Finished(id))
      ensures free == old(free) + 1 && admitted == old(admitted) - 1
    {
      requests := requests - {id};
      Release(id);
      admitted := admitted - 1;
    }
  }
}
