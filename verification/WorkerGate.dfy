/**
 The one-row gate between worker boots and queue claims. Every transaction that reads it for a claim or writes
 it holds the row's lock from that moment to its end, and transactions interleave freely otherwise.
 */
module WorkerGate {
  import opened Common

  type Boot = string

  datatype Phase = Stopped | Running | Draining

  datatype Row = Row(phase: Phase, boot: Option<Boot>)

  /** What a transaction sets out to do. A claimer without a boot id is not managed and takes no lock. */
  datatype Kind = Claim(boot: Boot) | FreeClaim | Register(boot: Boot) | Drain | Finish(boot: Boot)

  /** A transaction: waiting for the lock, holding it with the row it will commit, turned away, or over. */
  datatype Tx = Waiting(kind: Kind) | Holding(kind: Kind, draft: Row) | Over

  /** What was committed, in order. */
  datatype Entry = Claimed(boot: Boot) | FreelyClaimed | Registered(boot: Boot) | Drained | Finished(boot: Boot)

  datatype Gate = Gate(row: Option<Row>, txs: map<nat, Tx>, holder: Option<nat>, history: seq<Entry>)

  datatype Event = Begin(tx: nat, kind: Kind) | Lock(tx: nat) | Commit(tx: nat) | Abort(tx: nat)

  /** The gate is open to a boot. */
  predicate Allowed(row: Row, boot: Boot) {
    row == Row(Running, Some(boot))
  }

  /** The row a transaction leaves behind. */
  function After(row: Row, kind: Kind): Row {
    match kind
    case Register(boot) => Row(Running, Some(boot))
    case Drain => row.(phase := Draining)
    case Finish(boot) => if row.boot == Some(boot) then row.(phase := Stopped) else row
    case _ => row
  }

  function Logged(kind: Kind): Entry {
    match kind
    case Claim(boot) => Claimed(boot)
    case FreeClaim => FreelyClaimed
    case Register(boot) => Registered(boot)
    case Drain => Drained
    case Finish(boot) => Finished(boot)
  }

  /** The lock is granted: a claim whose boot is not the running one, or without a row, ends here. */
  function LockStep(g: Gate, tx: nat): Gate {
    if tx !in g.txs || !g.txs[tx].Waiting? || g.txs[tx].kind.FreeClaim? || g.holder.Some? then g else
    var kind := g.txs[tx].kind;
    if g.row.None? || (kind.Claim? && !Allowed(g.row.value, kind.boot)) then g.(txs := g.txs[tx := Over])
    else g.(txs := g.txs[tx := Holding(kind, After(g.row.value, kind))], holder := Some(tx))
  }

  function CommitStep(g: Gate, tx: nat): Gate {
    if tx !in g.txs then g else
    match g.txs[tx]
    case Holding(kind, draft) =>
      if g.holder == Some(tx) then Gate(Some(draft), g.txs[tx := Over], None, g.history + [Logged(kind)]) else g
    case Waiting(kind) => if kind.FreeClaim? then g.(txs := g.txs[tx := Over], history := g.history + [FreelyClaimed])
        else g
    case Over => g
  }

  function Step(g: Gate, e: Event): Gate {
    match e
    case Begin(tx, kind) => if tx in g.txs then g else g.(txs := g.txs[tx := Waiting(kind)])
    case Lock(tx) => LockStep(g, tx)
    case Commit(tx) => CommitStep(g, tx)
    case Abort(tx) => if tx !in g.txs then g
        else g.(txs := g.txs[tx := Over], holder := if g.holder == Some(tx) then None else g.holder)
  }

  function Exec(g: Gate, run: seq<Event>): Gate
    decreases |run|
  {
    if run == [] then g else Exec(Step(g, run[0]), run[1..])
  }

  /** The row as migrated: stopped and owned by no boot. */
  function Closed(): Gate {
    Gate(Some(Row(Stopped, None)), map[], None, [])
  }

  /** The entry ends what an earlier registration of this boot opened. */
  predicate Ends(e: Entry, boot: Boot) {
    e == Drained || e == Finished(boot) || (e.Registered? && e.boot != boot)
  }

  predicate RegisteredAt(history: seq<Entry>, boot: Boot, j: int) {
    && 0 <= j < |history| && history[j] == Registered(boot)
    && forall k | j < k < |history| :: !Ends(history[k], boot)
  }

  /** The boot registered, and nothing has ended that since. */
  ghost predicate Live(history: seq<Entry>, boot: Boot) {
    exists j :: RegisteredAt(history, boot, j)
  }

  /** The gate's row says exactly which boot is live. */
  ghost predicate Agrees(row: Option<Row>, history: seq<Entry>) {
    row.Some? && forall boot :: Allowed(row.value, boot) <==> Live(history, boot)
  }

  /** The holder's draft was made from the row as it still is, and a holding claim was let through. */
  predicate HolderOk(g: Gate) {
    g.holder.Some? ==>
      && g.row.Some? && g.holder.value in g.txs && g.txs[g.holder.value].Holding?
      && var t := g.txs[g.holder.value];
         t.draft == After(g.row.value, t.kind) && (t.kind.Claim? ==> Allowed(g.row.value, t.kind.boot))
  }

  ghost predicate ClaimsLive(history: seq<Entry>) {
    forall i | 0 <= i < |history| && history[i].Claimed? :: Live(history[..i], history[i].boot)
  }

  ghost predicate Inv(g: Gate) {
    Agrees(g.row, g.history) && HolderOk(g) && ClaimsLive(g.history)
  }

  lemma LiveAfterEntry(history: seq<Entry>, e: Entry, boot: Boot)
    ensures Live(history + [e], boot) <==> e == Registered(boot) || (Live(history, boot) && !Ends(e, boot))
  {
    var more := history + [e];
    if Live(more, boot) {
      var j :| RegisteredAt(more, boot, j);
      if j < |history| {
        assert more[|history|] == e;
        assert forall k | j < k < |history| :: more[k] == history[k];
        assert RegisteredAt(history, boot, j);
      }
    }
    if e == Registered(boot) {
      assert RegisteredAt(more, boot, |history|);
    } else if Live(history, boot) && !Ends(e, boot) {
      var j :| RegisteredAt(history, boot, j);
      assert RegisteredAt(more, boot, j);
    }
  }

  lemma CommitAgrees(row: Row, history: seq<Entry>, kind: Kind)
    requires Agrees(Some(row), history)
    ensures Agrees(Some(After(row, kind)), history + [Logged(kind)])
  {
    forall boot ensures Allowed(After(row, kind), boot) <==> Live(history + [Logged(kind)], boot) {
      LiveAfterEntry(history, Logged(kind), boot);
      assert Allowed(row, boot) <==> Live(history, boot);
    }
  }

  lemma CommitKeepsClaims(history: seq<Entry>, e: Entry)
    requires ClaimsLive(history) && (e.Claimed? ==> Live(history, e.boot))
    ensures ClaimsLive(history + [e])
  {
    var more := history + [e];
    forall i | 0 <= i < |more| && more[i].Claimed? ensures Live(more[..i], more[i].boot) {
      if i < |history| {
        assert more[..i] == history[..i];
      } else {
        assert more[..i] == history;
      }
    }
  }

  lemma CommitKeepsInv(g: Gate, tx: nat)
    requires Inv(g)
    ensures Inv(CommitStep(g, tx))
  {
    var t := CommitStep(g, tx);
    if t != g {
      var kind := g.txs[tx].kind;
      CommitAgrees(g.row.value, g.history, kind);
      CommitKeepsClaims(g.history, Logged(kind));
    }
  }

  lemma StepKeepsInv(g: Gate, e: Event)
    requires Inv(g)
    ensures Inv(Step(g, e))
  {
    if e.Commit? {
      CommitKeepsInv(g, e.tx);
    }
  }

  lemma {:induction false} RunKeepsInv(g: Gate, run: seq<Event>)
    requires Inv(g)
    ensures Inv(Exec(g, run))
    decreases |run|
  {
    if run != [] {
      StepKeepsInv(g, run[0]);
      RunKeepsInv(Step(g, run[0]), run[1..]);
    }
  }

  /**
   Every managed claim commits while its boot is registered and neither drained, finished nor replaced, and at
   any time the row is open to exactly such boots.
   */
  lemma ClaimsCommitWhileLive(run: seq<Event>)
    ensures
      var g := Exec(Closed(), run);
      && (forall i | 0 <= i < |g.history| && g.history[i].Claimed? :: Live(g.history[..i], g.history[i].boot))
      && (forall boot :: g.row == Some(Row(Running, Some(boot))) <==> Live(g.history, boot))
  {
    RunKeepsInv(Closed(), run);
  }

  /** A live boot whose claim gets the lock commits it, and no other managed boot can. */
  lemma OnlyLiveBootsClaim(g: Gate, tx: nat, boot: Boot)
    requires Inv(g) && g.holder.None? && tx !in g.txs
    ensures
      var t := Step(Step(Step(g, Begin(tx, Claim(boot))), Lock(tx)), Commit(tx));
      t.history == if Live(g.history, boot) then g.history + [Claimed(boot)] else g.history
  {
    assert Allowed(g.row.value, boot) <==> Live(g.history, boot);
  }

  /**
   Once a drain, a finish or another registration has committed, a claim of the old boot needs a new registration of
   it.
   */
  lemma EndedBootsDoNotClaim(run: seq<Event>, end: nat, claim: nat, boot: Boot)
    requires end < claim < |Exec(Closed(), run).history|
    requires Ends(Exec(Closed(), run).history[end], boot) && Exec(Closed(), run).history[claim] == Claimed(boot)
    ensures exists j :: end < j < claim && Exec(Closed(), run).history[j] == Registered(boot)
  {
    RunKeepsInv(Closed(), run);
    var history := Exec(Closed(), run).history;
    var j :| RegisteredAt(history[..claim], boot, j);
    assert history[..claim][end] == history[end];
    assert history[j] == Registered(boot);
  }

  /** A claimer without a boot id is never held up: its claim commits whatever the gate says and whoever holds it. */
  lemma UnmanagedClaimsCommit(g: Gate, tx: nat)
    requires tx !in g.txs
    ensures
      var t := Step(Step(g, Begin(tx, FreeClaim)), Commit(tx));
      t.history == g.history + [FreelyClaimed] && t.row == g.row && t.holder == g.holder
  {}

  /** Without the row the gate is closed to every managed boot. */
  lemma NoRowNoClaim(g: Gate, tx: nat, boot: Boot)
    requires g.row.None? && tx !in g.txs
    requires g.holder != Some(tx)
    ensures Step(Step(Step(g, Begin(tx, Claim(boot))), Lock(tx)), Commit(tx)).history == g.history
  {}

  /** A transaction that is rolled back leaves the row and the history alone and the lock free. */
  lemma RolledBackChangesNothing(g: Gate, tx: nat)
    requires tx in g.txs
    ensures
      var t := Step(g, Abort(tx));
      t.row == g.row && t.history == g.history && t.txs[tx] == Over && t.holder != Some(tx)
      && (g.holder != Some(tx) ==> t.holder == g.holder)
  {}
}
