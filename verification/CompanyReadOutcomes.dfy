/** How a company read ends: what its own steps lead to, and why an admitted request is no longer live. */
module CompanyReadOutcomes {
  import opened CompanyReadLimit

  /** A request that finds room runs at once if it sees a free slot, and queues otherwise; at capacity it is refused. */
  lemma ArrivalOutcomes(s: State, id: nat, sawLocked: bool)
    requires id !in s.ledger && id !in s.requests
    ensures
      var t := Step(s, Arrive(id, sawLocked));
      && (s.admitted >= s.capacity ==> t == s)
      && (s.admitted < s.capacity ==> id in t.requests && t.admitted == s.admitted + 1)
      && (s.admitted < s.capacity && !sawLocked && s.free > 0 ==>
            t.requests[id].phase == Running && t.free == s.free - 1)
      && (s.admitted < s.capacity && (sawLocked || s.free == 0) ==>
            t.requests[id].phase == Waiting(false, false) && t.free == s.free)
  {}

  /** A queued request that times out is answered: it is rejected while still admitted, and only then let go. */
  lemma TimedOutIsRejected(s: State, id: nat)
    requires Inv(s) && id in s.requests && s.requests[id].phase == Waiting(false, false)
    ensures
      var t := Step(Step(s, Leave(id)), CleanedUp(id));
      var end := Step(t, Rejected(id));
      && id in t.requests && t.requests[id].phase == Rejecting && t.free == s.free && t.admitted == s.admitted
      && id !in end.requests && end.free == s.free && end.admitted == s.admitted - 1
  {
    LedgerOf(s, id);
  }

  /** A queued request whose client leaves is let go with whatever it holds returned, and never runs. */
  lemma LeavingClientIsDropped(s: State, id: nat)
    requires Inv(s) && id in s.requests && s.requests[id].phase.Waiting? && s.requests[id].pending == []
    ensures
      var held := s.requests[id].phase.held;
      var watched := Step(Step(s, Send(id, Disconnect)), Watch(id));
      var t := Step(Step(watched, Leave(id)), CleanedUp(id));
      id !in t.requests && t.admitted == s.admitted - 1 && t.free == s.free + if held then 1 else 0
  {
    LedgerOf(s, id);
  }

  /** A queued request whose caller is cancelled is let go with whatever it holds returned. */
  lemma CancelledWaiterIsDropped(s: State, id: nat)
    requires Inv(s) && id in s.requests && s.requests[id].phase.Waiting?
    ensures
      var t := Step(Step(s, Cancel(id)), CleanedUp(id));
      && id !in t.requests && t.admitted == s.admitted - 1
      && t.free == s.free + if s.requests[id].phase.held then 1 else 0
  {
    LedgerOf(s, id);
  }

  // ----- why an admitted request is no longer live -----

  lemma {:induction false} ExecLast(s: State, run: seq<Event>)
    requires run != []
    ensures Exec(s, run) == Step(Exec(s, run[..|run| - 1]), run[|run| - 1])
    decreases |run|
  {
    if |run| > 1 {
      ExecLast(Step(s, run[0]), run[1..]);
      assert run[1..][..|run| - 2] == run[..|run| - 1][1..];
    }
  }

  /** At this place of the run the request's handler finishes or its 503 has been sent. */
  ghost predicate AnsweredAt(s: State, run: seq<Event>, k: nat, id: nat) {
    && k < |run| && id in Exec(s, run[..k]).requests
    && var phase := Exec(s, run[..k]).requests[id].phase;
       (run[k] == Finished(id) && phase == Running) || (run[k] == Rejected(id) && phase == Rejecting)
  }

  /** The request was answered, its client left, or its caller was cancelled. */
  ghost predicate Ended(s: State, run: seq<Event>, id: nat) {
    || (exists k: nat :: AnsweredAt(s, run, k, id))
    || Send(id, Disconnect) in run
    || Cancel(id) in run
  }

  /** What a live request shows of the past: an unread or noticed disconnect was sent, an aborted one was cancelled. */
  predicate Shows(r: Request, run: seq<Event>, id: nat) {
    && (Disconnect in r.pending ==> Send(id, Disconnect) in run)
    && (r.phase.Waiting? && r.phase.gone ==> Send(id, Disconnect) in run)
    && (r.phase.Cleanup? && r.phase.end == Left ==> Send(id, Disconnect) in run)
    && (r.phase.Cleanup? && r.phase.end == Aborted ==> Cancel(id) in run)
  }

  lemma EndedLonger(s: State, run: seq<Event>, e: Event, id: nat)
    requires Ended(s, run, id)
    ensures Ended(s, run + [e], id)
  {
    if k: nat :| AnsweredAt(s, run, k, id) {
      assert (run + [e])[..k] == run[..k];
      assert AnsweredAt(s, run + [e], k, id);
    }
  }

  /** One event later a live request still shows its past. */
  lemma StepShows(s: State, run: seq<Event>, e: Event, id: nat)
    requires id in Step(s, e).requests && (id in s.requests ==> Shows(s.requests[id], run, id))
    ensures Shows(Step(s, e).requests[id], run + [e], id)
  {
    if id in s.requests && e == Watch(id) && s.requests[id].pending != [] {
      assert s.requests[id].pending[0] in s.requests[id].pending;
    }
  }

  /** An event that ends a request is its last answer, or the request showed why. */
  lemma StepEnds(s: State, run: seq<Event>, id: nat)
    requires run != []
    requires
      var before := Exec(s, run[..|run| - 1]);
      && id in before.requests && Shows(before.requests[id], run[..|run| - 1], id)
      && id !in Step(before, run[|run| - 1]).requests
    ensures Ended(s, run, id)
  {
    var last := |run| - 1;
    if run[last] == Finished(id) || run[last] == Rejected(id) {
      assert AnsweredAt(s, run, last, id);
    } else if run[last] == Cancel(id) {
      assert Cancel(id) in run;
    } else {
      assert run[last] == CleanedUp(id);
    }
  }

  lemma {:induction false} RunShows(s: State, run: seq<Event>, id: nat)
    requires id in s.ledger ==> id in s.requests && Shows(s.requests[id], [], id)
    requires s.requests.Keys <= s.ledger.Keys
    ensures
      var t := Exec(s, run);
      && t.requests.Keys <= t.ledger.Keys
      && (id in t.requests ==> Shows(t.requests[id], run, id))
      && (id in t.ledger && id !in t.requests ==> Ended(s, run, id))
    decreases |run|
  {
    if run != [] {
      var front, e := run[..|run| - 1], run[|run| - 1];
      var before, t := Exec(s, front), Exec(s, run);
      RunShows(s, front, id);
      ExecLast(s, run);
      assert front + [e] == run;
      if id in t.requests {
        StepShows(before, front, e, id);
      } else if id in t.ledger {
        if id in before.requests {
          StepEnds(s, run, id);
        } else {
          EndedLonger(s, front, e, id);
        }
      }
    }
  }

  /**
   In every interleaving, an admitted request ceases to be live only after its handler finished, its 503 was sent,
   its client sent a disconnect, or its caller was cancelled.
   */
  lemma AdmittedRequestsAreAnswered(limit: nat, queued: nat, run: seq<Event>, id: nat)
    requires id in Exec(Initial(limit, queued), run).ledger && id !in Exec(Initial(limit, queued), run).requests
    ensures
      || (exists k: nat :: AnsweredAt(Initial(limit, queued), run, k, id))
      || Send(id, Disconnect) in run
      || Cancel(id) in run
  {
    RunShows(Initial(limit, queued), run, id);
  }

  lemma HandlerKeepsRunning(s: State, e: Event, id: nat)
    requires id in s.requests && id in s.ledger && s.requests[id].phase == Running && e != Finished(id)
    ensures
      var t := Step(s, e);
      id in t.requests && id in t.ledger && t.requests[id].phase == Running
  {}

  /** A handler keeps its slot until it finishes, whatever happens to its client and its caller. */
  lemma {:induction false} HandlersRunToTheEnd(s: State, run: seq<Event>, id: nat)
    requires id in s.requests && id in s.ledger && s.requests[id].phase == Running && Finished(id) !in run
    ensures id in Exec(s, run).requests && Exec(s, run).requests[id].phase == Running
    decreases |run|
  {
    if run != [] {
      assert run[0] in run;
      HandlerKeepsRunning(s, run[0], id);
      HandlersRunToTheEnd(Step(s, run[0]), run[1..], id);
    }
  }

  /** A running handler that receives is given the next message its client sent. */
  lemma HandlerReceivesNext(s: State, id: nat)
    requires Inv(s) && id in s.requests && s.requests[id].phase == Running
    requires |s.requests[id].seen| < |s.requests[id].sent|
    ensures
      var r, t := s.requests[id], Step(s, Receive(id));
      id in t.requests && t.requests[id].seen == r.sent[..|r.seen| + 1] && t.requests[id].sent == r.sent
  {
    var r := s.requests[id];
    assert MailOk(r);
    assert r.seen + r.buffered + r.pending == r.seen + (r.buffered + r.pending) == r.sent;
    assert r.sent[|r.seen|] == (r.buffered + r.pending)[0];
  }
}
