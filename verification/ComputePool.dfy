/**
 Warm child processes shared, one at a time, between jobs: a job takes an idle child or starts one, sends one
 request down its pipe and reads one reply. Replies carry no request id, so nothing but the pool's discipline
 ties a reply to the call that receives it. The `request` in a `Reply` is what the child was answering; no
 step of the parent looks at it.
 */
module ComputePool {
  import opened Common

  datatype Request = Request(job: nat, payload: string)

  datatype Reply = Reply(request: Request, content: string)

  /** A child's pipe and its current work. A dead child keeps the replies it had already written. */
  datatype Child = Child(inbox: seq<Request>, working: Option<Request>, outbox: seq<Reply>, alive: bool)

  datatype Phase =
    | Acquiring(retried: bool)
    | Sending(child: nat, retried: bool)
    | Waiting(child: nat)
    | Read(child: nat, reply: Reply)
    | Returned(reply: Reply)
    | Raised

  datatype Job = Job(request: Request, phase: Phase)

  datatype Pool = Pool(
    maxIdle: nat, idle: seq<nat>, live: set<nat>, forgotten: set<nat>, children: map<nat, Child>, next: nat,
        jobs: map<nat, Job>)

  /** How handing over a request ended; a failed send may still have delivered it. */
  datatype Sent = Delivered | Broken(delivered: bool) | Failed(delivered: bool)

  datatype Event =
    | Start(job: nat, payload: string)
    | PopStale
    | PopTop(job: nat)
    | Spawn(job: nat)
    | Send(job: nat, sent: Sent)
    | Take(child: nat)
    | Answer(child: nat, content: string)
    | Die(child: nat)
    | Receive(job: nat)
    | Stop(job: nat)
    | Release(job: nat, retire: bool)
    | KillLive

  /** The child a job has taken out of the pool. */
  function Held(p: Phase): Option<nat> {
    match p
    case Sending(c, _) => Some(c)
    case Waiting(c) => Some(c)
    case Read(c, _) => Some(c)
    case _ => None
  }

  function WithPhase(s: Pool, j: nat, p: Phase): Pool
    requires j in s.jobs
  {
    s.(jobs := s.jobs[j := s.jobs[j].(phase := p)])
  }

  /** Kill a child, close its pipe and let go of it for good. */
  function Forget(s: Pool, c: nat): Pool {
    s.(live := s.live - {c}, forgotten := s.forgotten + {c})
  }

  /** Pop the top idle child: one that died or idled too long is forgotten, and shutdown forgets them all. */
  function PopStaleStep(s: Pool): Pool {
    if s.idle == [] then s else Forget(s, s.idle[|s.idle| - 1]).(idle := s.idle[..|s.idle| - 1])
  }

  function PopTopStep(s: Pool, j: nat): Pool {
    if j !in s.jobs || !s.jobs[j].phase.Acquiring? || s.idle == [] then s
    else WithPhase(s.(idle := s.idle[..|s.idle| - 1]), j, Sending(s.idle[|s.idle| - 1], s.jobs[j].phase.retried))
  }

  function SpawnStep(s: Pool, j: nat): Pool {
    if j !in s.jobs || !s.jobs[j].phase.Acquiring? then s
    else WithPhase(s.(live := s.live + {s.next}, next := s.next + 1,
        children := s.children[s.next := Child([], None, [], true)]),
                   j, Sending(s.next, s.jobs[j].phase.retried))
  }

  function Delivers(s: Pool, c: nat, request: Request): Pool {
    if c !in s.children then s
    else s.(children := s.children[c := s.children[c].(inbox := s.children[c].inbox + [request])])
  }

  /** Only a broken pipe is retried, once; every failed send costs the child. */
  function SendStep(s: Pool, j: nat, sent: Sent): Pool {
    if j !in s.jobs || !s.jobs[j].phase.Sending? then s else
    var p := s.jobs[j].phase;
    match sent
    case Delivered => WithPhase(Delivers(s, p.child, s.jobs[j].request), j, Waiting(p.child))
    case Broken(delivered) =>
      var t := if delivered then Delivers(s, p.child, s.jobs[j].request) else s;
      WithPhase(Forget(t, p.child), j, if p.retried then Raised else Acquiring(true))
    case Failed(delivered) =>
      var t := if delivered then Delivers(s, p.child, s.jobs[j].request) else s;
      WithPhase(Forget(t, p.child), j, Raised)
  }

  /** The child's loop: read a request, answer it with one reply. */
  function ChildStep(s: Pool, e: Event): Pool
    requires e.Take? || e.Answer? || e.Die?
  {
    if e.child !in s.children || !s.children[e.child].alive then s else
    var c := s.children[e.child];
    match e
    case Take(_) =>
      if c.working.Some? || c.inbox == [] then s
      else s.(children := s.children[e.child := c.(inbox := c.inbox[1..], working := Some(c.inbox[0]))])
    case Answer(_, content) =>
      if c.working.None? then s
      else s.(children := s.children[e.child :=
          c.(working := None, outbox := c.outbox + [Reply(c.working.value, content)])])
    case Die(_) => s.(children := s.children[e.child := c.(alive := false, working := None)])
  }

  /** The poll found a reply and it was read. */
  function ReceiveStep(s: Pool, j: nat): Pool {
    if j !in s.jobs || !s.jobs[j].phase.Waiting? || s.jobs[j].phase.child !in s.children then s else
    var c := s.jobs[j].phase.child;
    var box := s.children[c].outbox;
    if box == [] then s
    else WithPhase(s.(children := s.children[c := s.children[c].(outbox := box[1..])]), j, Read(c, box[0]))
  }

  /** Return the reply, and the child to the idle stack unless it grew too large or there are enough. */
  function ReleaseStep(s: Pool, j: nat, retire: bool): Pool {
    if j !in s.jobs || !s.jobs[j].phase.Read? then s else
    var p := s.jobs[j].phase;
    var t := if retire || |s.idle| >= s.maxIdle then Forget(s, p.child) else s.(idle := s.idle + [p.child]);
    WithPhase(t, j, Returned(p.reply))
  }

  function Step(s: Pool, e: Event): Pool {
    match e
    case Start(j, payload) => if j in s.jobs then s
        else s.(jobs := s.jobs[j := Job(Request(j, payload), Acquiring(false))])
    case PopStale => PopStaleStep(s)
    case PopTop(j) => PopTopStep(s, j)
    case Spawn(j) => SpawnStep(s, j)
    case Send(j, sent) => SendStep(s, j, sent)
    case Receive(j) => ReceiveStep(s, j)
    case Stop(j) =>   // an overrun, a lost lease, an unreadable reply or an exit: the child is forgotten
      if j !in s.jobs || !s.jobs[j].phase.Waiting? then s
      else WithPhase(Forget(s, s.jobs[j].phase.child), j, Raised)
    case Release(j, retire) => ReleaseStep(s, j, retire)
    case KillLive =>
      s.(live := {}, children := map c | c in s.children :: if c in s.live
          then s.children[c].(alive := false, working := None) else s.children[c])
    case _ => ChildStep(s, e)
  }

  function Exec(s: Pool, run: seq<Event>): Pool
    decreases |run|
  {
    if run == [] then s else Exec(Step(s, run[0]), run[1..])
  }

  function Empty(maxIdle: nat): Pool {
    Pool(maxIdle, [], {}, {}, map[], 0, map[])
  }

  /** Nothing was asked of the child that it has not answered, and no answer is left unread. */
  predicate Quiet(c: Child) {
    c.inbox == [] && c.working.None? && c.outbox == []
  }

  /** At most one question is open with the child, and it is this one. */
  predicate OnlyAsked(c: Child, request: Request) {
    || (c.inbox == [request] && c.working.None? && c.outbox == [])
    || (c.inbox == [] && c.working == Some(request) && c.outbox == [])
    || (c.inbox == [] && c.working.None? && (c.outbox == [] || (|c.outbox| == 1 && c.outbox[0].request == request)))
  }

  predicate Usable(s: Pool, c: nat) {
    c in s.children && c !in s.forgotten
  }

  predicate JobOk(s: Pool, job: Job) {
    match job.phase
    case Sending(c, _) => Usable(s, c) && c !in s.idle && Quiet(s.children[c])
    case Waiting(c) => Usable(s, c) && c !in s.idle && OnlyAsked(s.children[c], job.request)
    case Read(c, reply) => Usable(s, c) && c !in s.idle && Quiet(s.children[c]) && reply.request == job.request
    case Returned(reply) => reply.request == job.request
    case _ => true
  }

  predicate IdleOk(s: Pool) {
    && |s.idle| <= s.maxIdle
    && (forall c | c in s.idle :: Usable(s, c) && Quiet(s.children[c]))
    && (forall i, k | 0 <= i < k < |s.idle| :: s.idle[i] != s.idle[k])
  }

  predicate Exclusive(s: Pool) {
    forall j, k | j in s.jobs && k in s.jobs && j != k && Held(s.jobs[j].phase).Some? ::
      Held(s.jobs[j].phase) != Held(s.jobs[k].phase)
  }

  ghost predicate Inv(s: Pool) {
    && IdleOk(s)
    && Exclusive(s)
    && (forall j | j in s.jobs :: s.jobs[j].request.job == j && JobOk(s, s.jobs[j]))
    && (forall c | c in s.children || c in s.forgotten :: c < s.next)
  }

  /** A child that is idle is held by no job. */
  lemma IdleIsFree(s: Pool, c: nat, j: nat)
    requires Inv(s) && c in s.idle && j in s.jobs
    ensures Held(s.jobs[j].phase) != Some(c)
  {
    assert JobOk(s, s.jobs[j]);
  }

  /** A job whose child's pipe, place and standing did not change is as it was. */
  lemma JobStaysOk(s: Pool, t: Pool, job: Job)
    requires JobOk(s, job)
    requires Held(job.phase).Some? ==>
      var c := Held(job.phase).value;
      && c in t.children && t.children[c] == s.children[c]
      && c !in t.idle && (c in t.forgotten ==> c in s.forgotten)
    ensures JobOk(t, job)
  {}

  lemma Popped(s: Pool)
    requires IdleOk(s) && s.idle != []
    ensures s.idle[|s.idle| - 1] in s.idle
    ensures forall c | c in s.idle[..|s.idle| - 1] :: c in s.idle && c != s.idle[|s.idle| - 1]
  {}

  lemma PopStaleKeepsInv(s: Pool)
    requires Inv(s)
    ensures Inv(PopStaleStep(s))
  {
    if s.idle != [] {
      var t := PopStaleStep(s);
      var c := s.idle[|s.idle| - 1];
      Popped(s);
      forall x | x in t.idle ensures Usable(t, x) && Quiet(t.children[x]) {
        assert x in s.idle;
      }
      forall j | j in t.jobs ensures t.jobs[j].request.job == j && JobOk(t, t.jobs[j]) {
        IdleIsFree(s, c, j);
        JobStaysOk(s, t, s.jobs[j]);
      }
    }
  }

  lemma PopTopKeepsInv(s: Pool, j: nat)
    requires Inv(s)
    ensures Inv(PopTopStep(s, j))
  {
    var t := PopTopStep(s, j);
    if t != s {
      var c := s.idle[|s.idle| - 1];
      Popped(s);
      forall x | x in t.idle ensures Usable(t, x) && Quiet(t.children[x]) {
        assert x in s.idle;
      }
      forall k | k in t.jobs ensures t.jobs[k].request.job == k && JobOk(t, t.jobs[k])
          && (k != j ==> Held(t.jobs[k].phase) != Some(c)) {
        IdleIsFree(s, c, k);
        if k != j { JobStaysOk(s, t, s.jobs[k]); }
      }
    }
  }

  lemma SpawnKeepsInv(s: Pool, j: nat)
    requires Inv(s)
    ensures Inv(SpawnStep(s, j))
  {
    var t := SpawnStep(s, j);
    if t != s {
      forall k | k in t.jobs ensures t.jobs[k].request.job == k && JobOk(t, t.jobs[k])
          && (k != j ==> Held(t.jobs[k].phase) != Some(s.next)) {
        if k != j { assert JobOk(s, s.jobs[k]); JobStaysOk(s, t, s.jobs[k]); }
      }
    }
  }

  /** Changing one job and the child it holds keeps the invariant if both stay in order. */
  lemma OwnChildKeepsInv(s: Pool, t: Pool, j: nat, c: nat)
    requires Inv(s) && j in s.jobs && Held(s.jobs[j].phase) == Some(c)
    requires t.jobs.Keys == s.jobs.Keys && forall k | k in s.jobs && k != j :: t.jobs[k] == s.jobs[k]
    requires t.jobs[j].request == s.jobs[j].request && JobOk(t, t.jobs[j])
    requires Held(t.jobs[j].phase).Some? ==> Held(t.jobs[j].phase) == Some(c)
    requires t.next == s.next && t.children.Keys == s.children.Keys && forall x | x in s.children && x != c ::
        t.children[x] == s.children[x]
    requires s.forgotten <= t.forgotten <= s.forgotten + {c} && |t.idle| <= s.maxIdle == t.maxIdle
    requires t.idle == s.idle
        || (t.idle == s.idle + [c] && Held(t.jobs[j].phase).None? && c !in t.forgotten && Quiet(t.children[c]))
    ensures Inv(t)
  {
    assert JobOk(s, s.jobs[j]);
    forall k | k in t.jobs ensures t.jobs[k].request.job == k && JobOk(t, t.jobs[k]) {
      if k != j {
        assert Held(s.jobs[k].phase) != Some(c);
        JobStaysOk(s, t, s.jobs[k]);
      }
    }
  }

  lemma SendKeepsInv(s: Pool, j: nat, sent: Sent)
    requires Inv(s)
    ensures Inv(SendStep(s, j, sent))
  {
    if j in s.jobs && s.jobs[j].phase.Sending? {
      assert JobOk(s, s.jobs[j]);
      OwnChildKeepsInv(s, SendStep(s, j, sent), j, s.jobs[j].phase.child);
    }
  }

  lemma ReceiveKeepsInv(s: Pool, j: nat)
    requires Inv(s)
    ensures Inv(ReceiveStep(s, j))
  {
    if ReceiveStep(s, j) != s {
      assert JobOk(s, s.jobs[j]);
      OwnChildKeepsInv(s, ReceiveStep(s, j), j, s.jobs[j].phase.child);
    }
  }

  lemma ReleaseKeepsInv(s: Pool, j: nat, retire: bool)
    requires Inv(s)
    ensures Inv(ReleaseStep(s, j, retire))
  {
    if ReleaseStep(s, j, retire) != s {
      assert JobOk(s, s.jobs[j]);
      OwnChildKeepsInv(s, ReleaseStep(s, j, retire), j, s.jobs[j].phase.child);
    }
  }

  lemma StopKeepsInv(s: Pool, j: nat)
    requires Inv(s)
    ensures Inv(Step(s, Stop(j)))
  {
    if Step(s, Stop(j)) != s {
      assert JobOk(s, s.jobs[j]);
      OwnChildKeepsInv(s, Step(s, Stop(j)), j, s.jobs[j].phase.child);
    }
  }

  /** What a child does by itself keeps it quiet, or keeps its one open question the one it was asked. */
  ghost predicate Evolves(c: Child, d: Child) {
    && (Quiet(c) ==> Quiet(d))
    && (forall r: Request :: OnlyAsked(c, r) ==> OnlyAsked(d, r))
  }

  lemma ChildrenEvolve(s: Pool, t: Pool)
    requires Inv(s) && t == s.(children := t.children, live := t.live) && t.children.Keys == s.children.Keys
    requires forall c | c in s.children :: Evolves(s.children[c], t.children[c])
    ensures Inv(t)
  {
    forall j | j in t.jobs ensures t.jobs[j].request.job == j && JobOk(t, t.jobs[j]) {
      assert JobOk(s, s.jobs[j]);
    }
  }

  lemma ChildKeepsInv(s: Pool, e: Event)
    requires Inv(s) && (e.Take? || e.Answer? || e.Die?)
    ensures Inv(ChildStep(s, e))
  {
    ChildrenEvolve(s, ChildStep(s, e));
  }

  lemma KillKeepsInv(s: Pool)
    requires Inv(s)
    ensures Inv(Step(s, KillLive))
  {
    ChildrenEvolve(s, Step(s, KillLive));
  }

  lemma StartKeepsInv(s: Pool, j: nat, payload: string)
    requires Inv(s)
    ensures Inv(Step(s, Start(j, payload)))
  {
    var t := Step(s, Start(j, payload));
    forall k | k in t.jobs ensures t.jobs[k].request.job == k && JobOk(t, t.jobs[k]) {
      if k in s.jobs { JobStaysOk(s, t, s.jobs[k]); }
    }
  }

  lemma StepKeepsInv(s: Pool, e: Event)
    requires Inv(s)
    ensures Inv(Step(s, e))
  {
    match e {
      case Start(j, payload) => StartKeepsInv(s, j, payload);
      case PopStale => PopStaleKeepsInv(s);
      case PopTop(j) => PopTopKeepsInv(s, j);
      case Spawn(j) => SpawnKeepsInv(s, j);
      case Send(j, sent) => SendKeepsInv(s, j, sent);
      case Receive(j) => ReceiveKeepsInv(s, j);
      case Stop(j) => StopKeepsInv(s, j);
      case Release(j, retire) => ReleaseKeepsInv(s, j, retire);
      case KillLive => KillKeepsInv(s);
      case _ => ChildKeepsInv(s, e);
    }
  }

  lemma StepOnlyForgets(s: Pool, e: Event)
    ensures s.forgotten <= Step(s, e).forgotten && Step(s, e).maxIdle == s.maxIdle
  {}

  lemma {:induction false} RunKeepsInv(s: Pool, run: seq<Event>)
    requires Inv(s)
    ensures Inv(Exec(s, run)) && s.forgotten <= Exec(s, run).forgotten && Exec(s, run).maxIdle == s.maxIdle
    decreases |run|
  {
    if run != [] {
      StepKeepsInv(s, run[0]);
      StepOnlyForgets(s, run[0]);
      RunKeepsInv(Step(s, run[0]), run[1..]);
    }
  }

  /** Every reply a call returns answers the request that call sent, whatever other jobs and children did meanwhile. */
  lemma RepliesAnswerTheirRequest(maxIdle: nat, run: seq<Event>, j: nat)
    requires j in Exec(Empty(maxIdle), run).jobs && Exec(Empty(maxIdle), run).jobs[j].phase.Returned?
    ensures Exec(Empty(maxIdle), run).jobs[j].phase.reply.request == Exec(Empty(maxIdle), run).jobs[j].request
    ensures Exec(Empty(maxIdle), run).jobs[j].request.job == j
  {
    RunKeepsInv(Empty(maxIdle), run);
    assert JobOk(Exec(Empty(maxIdle), run), Exec(Empty(maxIdle), run).jobs[j]);
  }

  lemma ChildAnswers(s: Pool, c: nat, request: Request, content: string)
    requires c in s.children && s.children[c] == Child([request], None, [], true)
    ensures Step(Step(s, Take(c)), Answer(c, content))
        == s.(children := s.children[c := Child([], None, [Reply(request, content)], true)])
  {
    var t := Step(s, Take(c));
    assert t.children[c] == Child([], Some(request), [], true);
    assert Step(t, Answer(c, content)).children[c] == Child([], None, [Reply(request, content)], true);
  }

  /** A quiet child that lives to answer completes the call and, while there is room, is idle again. */
  lemma CallsComplete(s: Pool, j: nat, content: string)
    requires Inv(s) && j in s.jobs && s.jobs[j].phase.Sending? && s.jobs[j].phase.child in s.children
    requires s.children[s.jobs[j].phase.child].alive && |s.idle| < s.maxIdle
    ensures
      var c := s.jobs[j].phase.child;
      var answered := Step(Step(Step(s, Send(j, Delivered)), Take(c)), Answer(c, content));
      var t := Step(Step(answered, Receive(j)), Release(j, false));
      && j in t.jobs && t.jobs[j].phase == Returned(Reply(s.jobs[j].request, content))
      && t.idle == s.idle + [c] && t.forgotten == s.forgotten
  {
    var c := s.jobs[j].phase.child;
    assert JobOk(s, s.jobs[j]);
    var sent := Step(s, Send(j, Delivered));
    ChildAnswers(sent, c, s.jobs[j].request, content);
  }

  /**
   Idle children are within the limit, listed once, have nothing outstanding and belong to no job; no child has two
   jobs.
   */
  lemma ChildrenAreNotShared(maxIdle: nat, run: seq<Event>)
    ensures
      var s := Exec(Empty(maxIdle), run);
      && |s.idle| <= maxIdle && (forall i, k | 0 <= i < k < |s.idle| :: s.idle[i] != s.idle[k])
      && (forall c | c in s.idle :: c in s.children && Quiet(s.children[c]))
      && (forall c, j | c in s.idle && j in s.jobs :: Held(s.jobs[j].phase) != Some(c))
      && (forall j, k | j in s.jobs && k in s.jobs && j != k && Held(s.jobs[j].phase).Some? ::
          Held(s.jobs[j].phase) != Held(s.jobs[k].phase))
  {
    RunKeepsInv(Empty(maxIdle), run);
    var s := Exec(Empty(maxIdle), run);
    forall c, j | c in s.idle && j in s.jobs ensures Held(s.jobs[j].phase) != Some(c) {
      IdleIsFree(s, c, j);
    }
  }

  /** A child stopped for an overrun, a lost lease, a failed send or an unreadable reply is never idle or used again. */
  lemma ForgottenIsForever(maxIdle: nat, run: seq<Event>, more: seq<Event>, c: nat)
    requires c in Exec(Empty(maxIdle), run).forgotten
    ensures
      var s := Exec(Exec(Empty(maxIdle), run), more);
      c !in s.idle && forall j | j in s.jobs :: Held(s.jobs[j].phase) != Some(c)
  {
    RunKeepsInv(Empty(maxIdle), run);
    RunKeepsInv(Exec(Empty(maxIdle), run), more);
    var s := Exec(Exec(Empty(maxIdle), run), more);
    forall j | j in s.jobs ensures Held(s.jobs[j].phase) != Some(c) {
      assert JobOk(s, s.jobs[j]);
    }
  }

  /** A broken pipe costs the child and is tried once more; a second one, or any other failed send, is raised. */
  lemma FailedSends(s: Pool, j: nat, sent: Sent)
    requires j in s.jobs && s.jobs[j].phase.Sending? && !sent.Delivered?
    ensures
      var p, t := s.jobs[j].phase, Step(s, Send(j, sent));
      && p.child in t.forgotten && p.child !in t.live && j in t.jobs
      && t.jobs[j].phase == if sent.Broken? && !p.retried then Acquiring(true) else Raised
  {}

  /** How often a job hands its request over in a run. */
  function Sends(s: Pool, run: seq<Event>, j: nat): nat
    decreases |run|
  {
    if run == [] then 0 else
    (if j in s.jobs && s.jobs[j].phase.Sending? && run[0].Send? && run[0].job == j then 1 else 0)
    + Sends(Step(s, run[0]), run[1..], j)
  }

  /** The sends a job may still make. */
  function SendsLeft(s: Pool, j: nat): nat {
    if j !in s.jobs then 2 else
    match s.jobs[j].phase
    case Acquiring(retried) => if retried then 1 else 2
    case Sending(_, retried) => if retried then 1 else 2
    case _ => 0
  }

  lemma StepSpendsSends(s: Pool, e: Event, j: nat)
    ensures
      var sends := if j in s.jobs && s.jobs[j].phase.Sending? && e.Send? && e.job == j then 1 else 0;
      SendsLeft(Step(s, e), j) + sends <= SendsLeft(s, j)
  {}

  /** In every run a call hands its request over at most twice. */
  lemma {:induction false} AtMostTwoSends(s: Pool, run: seq<Event>, j: nat)
    ensures Sends(s, run, j) <= SendsLeft(s, j) <= 2
    decreases |run|
  {
    if run != [] {
      StepSpendsSends(s, run[0], j);
      AtMostTwoSends(Step(s, run[0]), run[1..], j);
    }
  }

  /** The second send goes to another child: one taken from the pool, or a new one. */
  lemma RetryTakesAnotherChild(s: Pool, j: nat, delivered: bool)
    requires Inv(s) && j in s.jobs && s.jobs[j].phase.Sending? && !s.jobs[j].phase.retried
    ensures
      var c, broken := s.jobs[j].phase.child, Step(s, Send(j, Broken(delivered)));
      var taken, spawned := Step(broken, PopTop(j)), Step(broken, Spawn(j));
      && spawned.jobs[j].phase == Sending(s.next, true) && s.next != c
      && (s.idle != [] ==> taken.jobs[j].phase == Sending(s.idle[|s.idle| - 1], true) && s.idle[|s.idle| - 1] != c)
  {
    assert JobOk(s, s.jobs[j]);
  }

  /** A call that is stopped raises, and its child is gone; so is one too large or too many to be kept idle. */
  lemma UnwantedChildrenGo(s: Pool, j: nat, retire: bool)
    requires j in s.jobs
    ensures
      s.jobs[j].phase.Waiting? ==>
        var t := Step(s, Stop(j));
        t.jobs[j].phase == Raised && s.jobs[j].phase.child in t.forgotten && s.jobs[j].phase.child !in t.live
    ensures
      s.jobs[j].phase.Read? ==>
        var c, t := s.jobs[j].phase.child, Step(s, Release(j, retire));
        && t.jobs[j].phase == Returned(s.jobs[j].phase.reply)
        && (c in t.forgotten <==> c in s.forgotten || retire || |s.idle| >= s.maxIdle)
        && t.idle == if retire || |s.idle| >= s.maxIdle then s.idle else s.idle + [c]
  {}

  /** Killing what is live leaves no live child running. */
  lemma KilledChildrenStop(s: Pool, c: nat)
    requires c in s.live && c in s.children
    ensures
      var t := Step(s, KillLive);
      t.live == {} && c in t.children && !t.children[c].alive && t.children[c].working.None?
  {}
}
