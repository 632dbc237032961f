/**
 The admission queue for company reads, as the atomic stretches of code between two awaits. The semaphore is
 abstract: a request may find it locked although slots are free, and waiters are granted slots in any order.
 */
module CompanyReadLimit {
  datatype Message = Body(text: string) | Disconnect

  /** How a queued request left its wait. */
  datatype End = Won | Left | TimedOut | Aborted

  datatype Phase =
    | Waiting(held: bool, gone: bool)      // acquire and disconnect tasks are racing
    | Cleanup(end: End, held: bool)        // unfinished tasks were cancelled; waiting for them
    | Rejecting                            // sending the 503
    | Running                              // the handler task owns the slot

  /** A live request: what its client sent, and how much of it the watcher buffered and the handler has seen. */
  datatype Request = Request(phase: Phase, sent: seq<Message>, seen: seq<Message>, buffered: seq<Message>,
      pending: seq<Message>)

  /** How often a request took a slot and gave it back. */
  datatype Ledger = Ledger(taken: nat, returned: nat)

  datatype State = State(limit: nat, capacity: nat, free: nat, admitted: int, requests: map<nat, Request>,
      ledger: map<nat, Ledger>)

  datatype Event =
    | Arrive(id: nat, sawLocked: bool)
    | Grant(id: nat)
    | Send(id: nat, message: Message)
    | Watch(id: nat)
    | Leave(id: nat)
    | Cancel(id: nat)
    | CleanedUp(id: nat)
    | Rejected(id: nat)
    | Receive(id: nat)
    | Finished(id: nat)

  predicate Holds(p: Phase) {
    match p
    case Waiting(held, _) => held
    case Cleanup(_, held) => held
    case Rejecting => false
    case Running => true
  }

  function Took(s: State, id: nat): State
    requires id in s.ledger && s.free > 0
  {
    s.(free := s.free - 1, ledger := s.ledger[id := s.ledger[id].(taken := s.ledger[id].taken + 1)])
  }

  function Released(s: State, id: nat): State
    requires id in s.ledger
  {
    s.(free := s.free + 1, ledger := s.ledger[id := s.ledger[id].(returned := s.ledger[id].returned + 1)])
  }

  function WithPhase(s: State, id: nat, p: Phase): State
    requires id in s.requests
  {
    s.(requests := s.requests[id := s.requests[id].(phase := p)])
  }

  /** The request is over and no longer counted. */
  function Dropped(s: State, id: nat): State {
    s.(requests := s.requests - {id}, admitted := s.admitted - 1)
  }

  function ReleasedIf(s: State, id: nat, held: bool): State
    requires id in s.ledger
  {
    if held then Released(s, id) else s
  }

  /** From the entry of a matching request to its first await. */
  function ArriveStep(s: State, id: nat, sawLocked: bool): State {
    if id in s.ledger || s.admitted >= s.capacity then s else
    var fast := !sawLocked && s.free > 0;
    var t := s.(admitted := s.admitted + 1, ledger := s.ledger[id := Ledger(0, 0)],
                requests := s.requests[id := Request(if fast then Running else Waiting(false, false), [], [], [], [])]);
    if fast then Took(t, id) else t
  }

  /** The wait returned: a disconnect wins over an acquired slot, and neither means the queue timed out. */
  function LeaveStep(s: State, id: nat): State {
    if id !in s.requests || !s.requests[id].phase.Waiting? then s else
    var p := s.requests[id].phase;
    WithPhase(s, id, Cleanup(if p.gone then Left else if p.held then Won else TimedOut, p.held))
  }

  /** The caller is cancelled. The slot of a handler that already runs is not its to give back. */
  function CancelStep(s: State, id: nat): State {
    if id !in s.requests || id !in s.ledger then s else
    match s.requests[id].phase
    case Waiting(held, _) => WithPhase(s, id, Cleanup(Aborted, held))
    case Cleanup(_, held) => Dropped(ReleasedIf(s, id, held), id)
    case Rejecting => Dropped(s, id)
    case Running => s
  }

  /** Both tasks have ended: the winner starts its handler, everyone else returns what it holds. */
  function CleanedUpStep(s: State, id: nat): State {
    if id !in s.requests || id !in s.ledger || !s.requests[id].phase.Cleanup? then s else
    var p := s.requests[id].phase;
    match p.end
    case Won => WithPhase(s, id, Running)
    case TimedOut => WithPhase(ReleasedIf(s, id, p.held), id, Rejecting)
    case Left => Dropped(ReleasedIf(s, id, p.held), id)
    case Aborted => Dropped(ReleasedIf(s, id, p.held), id)
  }

  /** The disconnect watcher takes the client's next message: a disconnect ends it, anything else is buffered. */
  function WatchStep(s: State, id: nat): State {
    if id !in s.requests then s else
    var r := s.requests[id];
    if !r.phase.Waiting? || r.phase.gone || r.pending == [] then s
    else if r.pending[0] == Disconnect
        then s.(requests := s.requests[id := r.(phase := Waiting(r.phase.held, true), pending := r.pending[1..])])
    else s.(requests := s.requests[id := r.(buffered := r.buffered + [r.pending[0]], pending := r.pending[1..])])
  }

  /** The handler receives: buffered messages first, then the client's. */
  function ReceiveStep(s: State, id: nat): State {
    if id !in s.requests then s else
    var r := s.requests[id];
    if r.phase != Running then s
    else if r.buffered != []
        then s.(requests := s.requests[id := r.(seen := r.seen + [r.buffered[0]], buffered := r.buffered[1..])])
    else if r.pending != []
        then s.(requests := s.requests[id := r.(seen := r.seen + [r.pending[0]], pending := r.pending[1..])])
    else s
  }

  function Step(s: State, e: Event): State {
    match e
    case Arrive(id, sawLocked) => ArriveStep(s, id, sawLocked)
    case Grant(id) =>
      if id !in s.requests || id !in s.ledger || s.free == 0 || !s.requests[id].phase.Waiting?
          || s.requests[id].phase.held then s
      else WithPhase(Took(s, id), id, Waiting(true, s.requests[id].phase.gone))
    case Send(id, message) =>
      if id !in s.requests then s
      else s.(requests := s.requests[id :=
          s.requests[id].(sent := s.requests[id].sent + [message], pending := s.requests[id].pending + [message])])
    case Watch(id) => WatchStep(s, id)
    case Leave(id) => LeaveStep(s, id)
    case Cancel(id) => CancelStep(s, id)
    case CleanedUp(id) => CleanedUpStep(s, id)
    case Rejected(id) => if id in s.requests && s.requests[id].phase == Rejecting then Dropped(s, id) else s
    case Receive(id) => ReceiveStep(s, id)
    case Finished(id) => if id in s.requests && id in s.ledger && s.requests[id].phase == Running
        then Dropped(Released(s, id), id) else s
  }

  function Exec(s: State, run: seq<Event>): State
    decreases |run|
  {
    if run == [] then s else Exec(Step(s, run[0]), run[1..])
  }

  function Initial(limit: nat, queued: nat): State {
    State(limit, limit + queued, limit, 0, map[], map[])
  }

  ghost function Holders(requests: map<nat, Request>): set<nat> {
    set id | id in requests && Holds(requests[id].phase)
  }

  /** Every slot is free or owned by one live request, and the counters say so. */
  ghost predicate SlotsConserved(s: State) {
    && s.free + |Holders(s.requests)| == s.limit
    && s.admitted == |s.requests| <= s.capacity
  }

  /** A request takes at most one slot; while it lives it owes what it holds, and afterwards nothing. */
  predicate Settled(s: State, id: nat)
    requires id in s.ledger
  {
    && s.ledger[id].returned <= s.ledger[id].taken <= 1
    && (id !in s.requests ==> s.ledger[id].returned == s.ledger[id].taken)
    && (id in s.requests ==>
          && s.ledger[id].returned == 0
          && s.ledger[id].taken == if Holds(s.requests[id].phase) then 1 else 0)
  }

  /** Who may hold a slot when: a winner does, a timed out request does not. */
  predicate PhaseOk(p: Phase) {
    p.Cleanup? ==> (p.end == Won ==> p.held) && (p.end == TimedOut ==> !p.held)
  }

  /** The watcher may have taken a disconnect; such a request never starts its handler. */
  predicate Doomed(p: Phase) {
    match p
    case Waiting(_, gone) => gone
    case Cleanup(end, _) => end == Left || end == Aborted
    case Rejecting => false
    case Running => false
  }

  /** Nothing the client sent is lost or reordered on its way to the handler. */
  predicate MailOk(r: Request) {
    && (r.phase.Waiting? || r.phase.Cleanup? ==> r.seen == [])
    && (|| r.seen + r.buffered + r.pending == r.sent
        || (Doomed(r.phase) && r.buffered + [Disconnect] + r.pending == r.sent))
  }

  ghost predicate Inv(s: State) {
    && SlotsConserved(s)
    && s.requests.Keys <= s.ledger.Keys
    && (forall id | id in s.ledger :: Settled(s, id))
    && (forall id | id in s.requests :: PhaseOk(s.requests[id].phase) && MailOk(s.requests[id]))
  }

  lemma HoldersAfterUpdate(requests: map<nat, Request>, id: nat, r: Request)
    ensures Holders(requests[id := r]) == if Holds(r.phase) then Holders(requests) + {id} else Holders(requests) - {id}
    ensures |requests[id := r]| == if id in requests then |requests| else |requests| + 1
  {
    var after := requests[id := r];
    assert after.Keys == requests.Keys + {id};
  }

  lemma HoldersAfterDrop(requests: map<nat, Request>, id: nat)
    requires id in requests
    ensures Holders(requests - {id}) == Holders(requests) - {id}
    ensures |requests - {id}| == |requests| - 1
  {
    assert (requests - {id}).Keys == requests.Keys - {id};
  }

  function Slots(p: Phase): nat {
    if Holds(p) then 1 else 0
  }

  /** Admitting or moving one request keeps the invariant if it pays for its slot and stays well formed. */
  lemma MoveKeepsInv(s: State, t: State, id: nat, r: Request)
    requires Inv(s) && (id in s.ledger ==> id in s.requests)
    requires t.limit == s.limit && t.capacity == s.capacity
    requires t.requests == s.requests[id := r] && t.ledger == s.ledger[id := Ledger(Slots(r.phase), 0)]
    requires t.free + Slots(r.phase) == s.free + if id in s.requests then Slots(s.requests[id].phase) else 0
    requires t.admitted == if id in s.requests then s.admitted else s.admitted + 1
    requires t.admitted <= t.capacity
    requires PhaseOk(r.phase) && MailOk(r)
    ensures Inv(t)
  {
    assert SlotsConserved(t) by {
      HoldersAfterUpdate(s.requests, id, r);
    }
    forall x | x in t.ledger ensures Settled(t, x) {
      if x != id {
        assert Settled(s, x);
      }
    }
  }

  lemma LedgerOf(s: State, id: nat)
    requires Inv(s) && id in s.requests
    ensures id in s.ledger && s.ledger[id] == Ledger(Slots(s.requests[id].phase), 0)
  {
    assert Settled(s, id);
  }

  lemma ArriveKeepsInv(s: State, id: nat, sawLocked: bool)
    requires Inv(s)
    ensures Inv(ArriveStep(s, id, sawLocked))
  {
    var t := ArriveStep(s, id, sawLocked);
    if id !in s.ledger && s.admitted < s.capacity {
      MoveKeepsInv(s, t, id, t.requests[id]);
    }
  }

  lemma PhaseKeepsInv(s: State, t: State, id: nat, p: Phase)
    requires Inv(s) && id in s.requests && t == WithPhase(s, id, p)
    requires Holds(p) == Holds(s.requests[id].phase) && PhaseOk(p)
    requires (p.Waiting? || p.Cleanup? ==> s.requests[id].phase.Waiting? || s.requests[id].phase.Cleanup?)
        && (Doomed(s.requests[id].phase) ==> Doomed(p))
    ensures Inv(t)
  {
    LedgerOf(s, id);
    assert t.ledger == s.ledger[id := s.ledger[id]];
    MoveKeepsInv(s, t, id, s.requests[id].(phase := p));
  }

  lemma DropKeepsInv(s: State, id: nat)
    requires Inv(s) && id in s.requests
    ensures Inv(Dropped(ReleasedIf(s, id, Holds(s.requests[id].phase)), id))
  {
    var t := Dropped(ReleasedIf(s, id, Holds(s.requests[id].phase)), id);
    assert SlotsConserved(t) by {
      HoldersAfterDrop(s.requests, id);
    }
    forall x | x in t.ledger ensures Settled(t, x) {
      assert Settled(s, x);
    }
  }

  lemma GrantKeepsInv(s: State, id: nat)
    requires Inv(s)
    ensures Inv(Step(s, Grant(id)))
  {
    var t := Step(s, Grant(id));
    if t != s {
      LedgerOf(s, id);
      MoveKeepsInv(s, t, id, t.requests[id]);
    }
  }

  lemma SendKeepsMail(r: Request, m: Message)
    requires MailOk(r)
    ensures MailOk(r.(sent := r.sent + [m], pending := r.pending + [m]))
  {
    assert r.seen + r.buffered + (r.pending + [m]) == (r.seen + r.buffered + r.pending) + [m];
    assert r.buffered + [Disconnect] + (r.pending + [m]) == (r.buffered + [Disconnect] + r.pending) + [m];
  }

  lemma WatchKeepsMail(r: Request)
    requires MailOk(r) && r.phase.Waiting? && !r.phase.gone && r.pending != []
    ensures r.pending[0] == Disconnect ==> MailOk(r.(phase := Waiting(r.phase.held, true), pending := r.pending[1..]))
    ensures MailOk(r.(buffered := r.buffered + [r.pending[0]], pending := r.pending[1..]))
  {
    assert r.seen + r.buffered + r.pending == r.buffered + [r.pending[0]] + r.pending[1..];
    assert r.seen + (r.buffered + [r.pending[0]]) + r.pending[1..] == r.sent;
  }

  lemma ReceiveKeepsMail(r: Request)
    requires MailOk(r) && r.phase == Running
    ensures r.buffered != [] ==> MailOk(r.(seen := r.seen + [r.buffered[0]], buffered := r.buffered[1..]))
    ensures r.buffered == [] && r.pending != [] ==>
        MailOk(r.(seen := r.seen + [r.pending[0]], pending := r.pending[1..]))
  {
    if r.buffered != [] {
      assert (r.seen + [r.buffered[0]]) + r.buffered[1..] == r.seen + r.buffered;
    } else if r.pending != [] {
      assert (r.seen + [r.pending[0]]) + r.buffered + r.pending[1..] == r.seen + r.buffered + r.pending;
    }
  }

  lemma MailKeepsInv(s: State, e: Event)
    requires Inv(s) && (e.Send? || e.Watch? || e.Receive?)
    ensures Inv(Step(s, e))
  {
    var t := Step(s, e);
    if t != s {
      var r := s.requests[e.id];
      match e {
        case Send(_, message) => SendKeepsMail(r, message);
        case Watch(_) => WatchKeepsMail(r);
        case Receive(_) => ReceiveKeepsMail(r);
      }
      LedgerOf(s, e.id);
      assert t.ledger == s.ledger[e.id := s.ledger[e.id]];
      MoveKeepsInv(s, t, e.id, t.requests[e.id]);
    }
  }

  lemma LeaveKeepsInv(s: State, id: nat)
    requires Inv(s)
    ensures Inv(LeaveStep(s, id))
  {
    var t := LeaveStep(s, id);
    if t != s {
      PhaseKeepsInv(s, t, id, t.requests[id].phase);
    }
  }

  lemma CancelKeepsInv(s: State, id: nat)
    requires Inv(s)
    ensures Inv(CancelStep(s, id))
  {
    if id in s.requests {
      match s.requests[id].phase {
        case Waiting(held, _) => PhaseKeepsInv(s, CancelStep(s, id), id, Cleanup(Aborted, held));
        case Running =>
        case _ => DropKeepsInv(s, id);
      }
    }
  }

  lemma CleanedUpKeepsInv(s: State, id: nat)
    requires Inv(s)
    ensures Inv(CleanedUpStep(s, id))
  {
    var t := CleanedUpStep(s, id);
    if t != s {
      if s.requests[id].phase.end == Won || s.requests[id].phase.end == TimedOut {
        PhaseKeepsInv(s, t, id, t.requests[id].phase);
      } else {
        DropKeepsInv(s, id);
      }
    }
  }

  lemma StepKeepsInv(s: State, e: Event)
    requires Inv(s)
    ensures Inv(Step(s, e))
  {
    match e {
      case Arrive(id, sawLocked) => ArriveKeepsInv(s, id, sawLocked);
      case Grant(id) => GrantKeepsInv(s, id);
      case Leave(id) => LeaveKeepsInv(s, id);
      case Cancel(id) => CancelKeepsInv(s, id);
      case CleanedUp(id) => CleanedUpKeepsInv(s, id);
      case Rejected(id) => if Step(s, e) != s { DropKeepsInv(s, id); }
      case Finished(id) => if Step(s, e) != s { DropKeepsInv(s, id); }
      case _ => MailKeepsInv(s, e);
    }
  }

  lemma StepKeepsLimits(s: State, e: Event)
    ensures Step(s, e).limit == s.limit && Step(s, e).capacity == s.capacity
  {}

  lemma {:induction false} RunKeepsInv(s: State, run: seq<Event>)
    requires Inv(s)
    ensures Inv(Exec(s, run)) && Exec(s, run).limit == s.limit && Exec(s, run).capacity == s.capacity
    decreases |run|
  {
    if run != [] {
      StepKeepsInv(s, run[0]);
      StepKeepsLimits(s, run[0]);
      RunKeepsInv(Step(s, run[0]), run[1..]);
    }
  }

  /**
   In every interleaving of arrivals, grants, timeouts, disconnects, cancellations and completions: free slots
   plus owned slots make up the limit, `admitted` counts the live requests and stays within capacity, and every
   request took at most one slot and, once it is over, gave it back exactly once.
   */
  lemma SlotsAreNeverLost(limit: nat, queued: nat, run: seq<Event>)
    ensures
      var s := Exec(Initial(limit, queued), run);
      && s.free + |Holders(s.requests)| == limit
      && s.admitted == |s.requests| <= limit + queued
      && (forall id | id in s.requests ::
            id in s.ledger && s.ledger[id] == Ledger(if Holds(s.requests[id].phase) then 1 else 0, 0))
      && (forall id | id in s.ledger && id !in s.requests ::
            s.ledger[id] == Ledger(0, 0) || s.ledger[id] == Ledger(1, 1))
  {
    assert Holders(Initial(limit, queued).requests) == {};
    RunKeepsInv(Initial(limit, queued), run);
  }

  /** A queued request that gets a free slot runs. */
  lemma QueuedRequestRuns(s: State, id: nat)
    requires Inv(s) && id in s.requests && s.requests[id].phase == Waiting(false, false) && s.free > 0
    ensures
      var t := Step(Step(Step(s, Grant(id)), Leave(id)), CleanedUp(id));
      id in t.requests && t.requests[id].phase == Running && t.free == s.free - 1
  {
    LedgerOf(s, id);
  }

  /** One whose client left while the slot was being granted gives it straight back. */
  lemma DisconnectReturnsTheSlot(s: State, id: nat)
    requires Inv(s) && id in s.requests && s.requests[id].phase == Waiting(false, true) && s.free > 0
    ensures
      var t := Step(Step(Step(s, Grant(id)), Leave(id)), CleanedUp(id));
      id !in t.requests && t.free == s.free && t.admitted == s.admitted - 1
  {
    LedgerOf(s, id);
  }

  /** When no request is live, the limiter is as it started. */
  lemma IdleLimiterIsWhole(limit: nat, queued: nat, run: seq<Event>)
    requires Exec(Initial(limit, queued), run).requests == map[]
    ensures Exec(Initial(limit, queued), run).free == limit && Exec(Initial(limit, queued), run).admitted == 0
  {
    SlotsAreNeverLost(limit, queued, run);
    assert Holders(map[]) == {};
  }

  /** A handler is given what its client sent, from the first message on and in order, however long it queued. */
  lemma HandlersSeeWhatWasSent(limit: nat, queued: nat, run: seq<Event>, id: nat)
    requires id in Exec(Initial(limit, queued), run).requests
    ensures Exec(Initial(limit, queued), run).requests[id].seen <= Exec(Initial(limit, queued), run).requests[id].sent
  {
    assert Holders(Initial(limit, queued).requests) == {};
    RunKeepsInv(Initial(limit, queued), run);
  }
}
