/**
 The purge outbox: publications and renames enqueue a company name under a new generation token, purge passes
 post to the edge cache outside any lock on the row and settle it only if its generation is still theirs.
 */
module CompanyPagePurge {
  import opened Common
  import opened CompanyPages

  datatype Row = Row(token: nat, attempts: nat, due: real)

  type Outbox = map<string, Row>

  /** A purge pass holding the advisory lock: the row it read and what the provider answered. */
  datatype Attempt = Attempt(name: string, generation: nat, attempts: nat, confirmed: Option<bool>)

  /** `published` and `purged` record when each name was last enqueued and last confirmed purged. */
  datatype State = State(
    rows: Outbox, lease: Option<Attempt>, tokens: nat, now: real, clock: nat, published: map<string, nat>,
        purged: map<string, nat>)

  datatype Event =
    | Publish(name: string, at: real)
    | Select(name: string) | Post(confirmed: bool) | Settle
    | Crash | Tick(seconds: real)

  function Enqueue(rows: Outbox, name: string, token: nat, now: real): Outbox {
    rows[name := Row(token, 0, now)]
  }

  /** The row a pass takes: due, and none due earlier. */
  predicate EarliestDue(rows: Outbox, name: string, now: real) {
    name in rows && rows[name].due <= now && forall n | n in rows :: rows[name].due <= rows[n].due
  }

  /** Delete the row after a confirmed purge, or back it off, if it still has the generation that was read. */
  function Settled(rows: Outbox, a: Attempt, now: real): Outbox {
    if a.name !in rows || rows[a.name].token != a.generation then rows
    else if a.confirmed == Some(true) then rows - {a.name}
    else rows[a.name := Row(a.generation, a.attempts + 1, now + Backoff(a.attempts) as real)]
  }

  function Step(s: State, e: Event): State {
    var t := s.(clock := s.clock + 1);
    match e
    case Publish(name, at) =>
      t.(rows := Enqueue(s.rows, name, s.tokens, at), tokens := s.tokens + 1,
          published := s.published[name := s.clock])
    case Select(name) =>
      if s.lease.Some? || !EarliestDue(s.rows, name, s.now) then t
      else t.(lease := Some(Attempt(name, s.rows[name].token, s.rows[name].attempts, None)))
    case Post(confirmed) =>
      if s.lease.None? || s.lease.value.confirmed.Some? then t
      else t.(lease := Some(s.lease.value.(confirmed := Some(confirmed))),
              purged := if confirmed then s.purged[s.lease.value.name := s.clock] else s.purged)
    case Settle =>
      if s.lease.None? || s.lease.value.confirmed.None? then t
      else t.(rows := Settled(s.rows, s.lease.value, s.now), lease := None)
    case Crash => t.(lease := None)
    case Tick(seconds) => if seconds >= 0.0 then t.(now := s.now + seconds) else t
  }

  function Exec(s: State, run: seq<Event>): State
    decreases |run|
  {
    if run == [] then s else Exec(Step(s, run[0]), run[1..])
  }

  /** The name was confirmed purged after its latest publication. */
  predicate PurgedSince(s: State, name: string) {
    name in s.purged && (name in s.published ==> s.published[name] < s.purged[name])
  }

  /** A confirmed attempt whose generation still stands was confirmed after the latest publication. */
  predicate LeaseOk(s: State) {
    s.lease.Some? ==>
      var a := s.lease.value;
      && a.generation < s.tokens
      && (a.confirmed == Some(true) && a.name in s.rows && s.rows[a.name].token == a.generation ==>
          PurgedSince(s, a.name))
  }

  predicate Inv(s: State) {
    && (forall n | n in s.rows :: s.rows[n].token < s.tokens)
    && (forall n | n in s.published :: s.published[n] < s.clock)
    && (forall n | n in s.purged :: s.purged[n] < s.clock)
    && (forall n | n in s.published :: n in s.rows || PurgedSince(s, n))
    && LeaseOk(s)
  }

  lemma PublishKeepsInv(s: State, name: string, at: real)
    requires Inv(s)
    ensures Inv(Step(s, Publish(name, at)))
  {}

  lemma SettleKeepsInv(s: State)
    requires Inv(s)
    ensures Inv(Step(s, Settle))
  {}

  lemma PassKeepsInv(s: State, e: Event)
    requires Inv(s) && !e.Publish? && !e.Settle?
    ensures Inv(Step(s, e))
  {}

  lemma StepKeepsInv(s: State, e: Event)
    requires Inv(s)
    ensures Inv(Step(s, e))
  {
    match e {
      case Publish(name, at) => PublishKeepsInv(s, name, at);
      case Settle => SettleKeepsInv(s);
      case _ => PassKeepsInv(s, e);
    }
  }

  /**
   No purge is lost: in every interleaving of publications, purge passes, provider failures and crashes, a
   published name still has its outbox row or was confirmed purged after its latest publication.
   */
  lemma {:induction false} NoPurgeIsLost(s: State, run: seq<Event>)
    requires Inv(s)
    ensures Inv(Exec(s, run))
    ensures forall n | n in Exec(s, run).published :: n in Exec(s, run).rows || PurgedSince(Exec(s, run), n)
    decreases |run|
  {
    if run != [] {
      StepKeepsInv(s, run[0]);
      NoPurgeIsLost(Step(s, run[0]), run[1..]);
    }
  }

  /** A publication that lands while a purge is in flight survives whatever that purge does next. */
  lemma {:induction false} NewerPublicationSurvives(s: State, name: string, token: nat, run: seq<Event>)
    requires Inv(s) && name in s.rows && token <= s.rows[name].token
    requires s.lease.Some? && s.lease.value.name == name ==> s.lease.value.generation < token
    requires forall i | 0 <= i < |run| :: !run[i].Select?
    ensures name in Exec(s, run).rows && token <= Exec(s, run).rows[name].token
    decreases |run|
  {
    if run != [] {
      StepKeepsInv(s, run[0]);
      assert forall i | 0 <= i < |run[1..]| :: run[1..][i] == run[i + 1];
      NewerPublicationSurvives(Step(s, run[0]), name, token, run[1..]);
    }
  }

  /** Attempts on a row are spaced by delays that grow from five seconds and never pass five minutes. */
  lemma FailedPurgeRetries(s: State, name: string)
    requires name in s.rows && s.lease == Some(Attempt(name, s.rows[name].token, s.rows[name].attempts, Some(false)))
    ensures
      var row := Step(s, Settle).rows[name];
      && row.token == s.rows[name].token && row.attempts == s.rows[name].attempts + 1
      && s.now + 5.0 <= row.due <= s.now + 300.0
  {
    Pow2Grows(0, Min(s.rows[name].attempts, 6));
  }

  lemma {:induction false} ExecAppend(s: State, a: seq<Event>, b: seq<Event>)
    ensures Exec(s, a + b) == Exec(Exec(s, a), b)
    decreases |a|
  {
    if a == [] {
      assert a + b == b;
    } else {
      assert (a + b)[1..] == a[1..] + b;
      ExecAppend(Step(s, a[0]), a[1..], b);
    }
  }

  lemma {:induction false} ClockCounts(s: State, run: seq<Event>)
    ensures Exec(s, run).clock == s.clock + |run|
    decreases |run|
  {
    if run != [] {
      ClockCounts(Step(s, run[0]), run[1..]);
    }
  }

  /** At this place of the run the provider confirmed the purge of this name. */
  ghost predicate ConfirmedAt(s: State, run: seq<Event>, k: nat, name: string) {
    && k < |run| && run[k] == Post(true)
    && Exec(s, run[..k]).lease.Some? && Exec(s, run[..k]).lease.value.name == name
  }

  lemma {:induction false} PurgedIsConfirmed(s: State, run: seq<Event>, name: string)
    ensures
      var t := Exec(s, run);
      name in t.purged ==>
        || (name in s.purged && t.purged[name] == s.purged[name])
        || (s.clock <= t.purged[name] && ConfirmedAt(s, run, t.purged[name] - s.clock, name))
    decreases |run|
  {
    if run != [] {
      var m, t := Step(s, run[0]), Exec(s, run);
      PurgedIsConfirmed(m, run[1..], name);
      if name in t.purged {
        if m.clock <= t.purged[name] && ConfirmedAt(m, run[1..], t.purged[name] - m.clock, name) {
          var k := t.purged[name] - m.clock;
          assert run[..k + 1][1..] == run[1..][..k];
        } else if name !in s.purged || m.purged[name] != s.purged[name] {
          assert run[..0] == [];
        }
      }
    }
  }

  lemma {:induction false} PublishedLater(s: State, run: seq<Event>, name: string)
    requires Inv(s) && name in s.published
    ensures name in Exec(s, run).published && s.published[name] <= Exec(s, run).published[name]
    decreases |run|
  {
    if run != [] {
      StepKeepsInv(s, run[0]);
      PublishedLater(Step(s, run[0]), run[1..], name);
    }
  }

  /**
   In every interleaving, a name published at some place of the run has its outbox row at the end, or the provider
   confirmed its purge at a later place.
   */
  lemma {:induction false} EveryPublicationIsPurged(s: State, run: seq<Event>, i: nat)
    requires Inv(s) && i < |run| && run[i].Publish?
    ensures run[i].name in Exec(s, run).rows || exists k: nat | i < k :: ConfirmedAt(s, run, k, run[i].name)
  {
    var name := run[i].name;
    var m, t := Exec(s, run[..i]), Exec(s, run);
    ExecAppend(s, run[..i], run[i..]);
    assert run[..i] + run[i..] == run;
    ClockCounts(s, run[..i]);
    NoPurgeIsLost(s, run[..i]);
    NoPurgeIsLost(s, run);
    StepKeepsInv(m, run[i]);
    PublishedLater(Step(m, run[i]), run[i..][1..], name);
    PurgedIsConfirmed(s, run, name);
    if name !in t.rows {
      assert PurgedSince(t, name) && s.clock + i < t.purged[name];
      assert ConfirmedAt(s, run, t.purged[name] - s.clock, name);
    }
  }

  lemma {:induction false} EarliestExists(rows: Outbox) returns (name: string)
    requires rows != map[]
    ensures name in rows && forall n | n in rows :: rows[name].due <= rows[n].due
    decreases |rows|
  {
    var n :| n in rows;
    name := n;
    var rest := rows - {n};
    assert forall k | k in rows :: k == n || k in rest;
    if rest != map[] {
      var m := EarliestExists(rest);
      name := if rows[m].due < rows[n].due then m else n;
    }
  }

  /** Wait until the earliest row is due, then purge it. */
  function PurgePass(name: string, delay: real): seq<Event> {
    [Tick(delay), Select(name), Post(true), Settle]
  }

  lemma PassRemovesRow(s: State, name: string, delay: real)
    requires s.lease.None? && 0.0 <= delay && EarliestDue(s.rows, name, s.now + delay)
    ensures Exec(s, PurgePass(name, delay)).rows == s.rows - {name} && Exec(s, PurgePass(name, delay)).lease.None?
  {
    var run := PurgePass(name, delay);
    var a := Step(s, run[0]);
    var b := Step(a, run[1]);
    var c := Step(b, run[2]);
    assert run[1..][1..][1..][1..] == [];
    assert Exec(s, run) == Exec(a, run[1..]) == Exec(b, run[1..][1..]) == Exec(c, run[1..][1..][1..]) == Step(c,
        run[3]);
  }

  /** No row gets stuck: from any state a run without publications empties the outbox once the provider answers. */
  lemma {:induction false} OutboxDrains(s: State) returns (run: seq<Event>)
    requires s.lease.None?
    ensures Exec(s, run).rows == map[] && forall i | 0 <= i < |run| :: !run[i].Publish?
    decreases |s.rows|
  {
    if s.rows == map[] {
      return [];
    }
    var name := EarliestExists(s.rows);
    var delay := if s.rows[name].due <= s.now then 0.0 else s.rows[name].due - s.now;
    PassRemovesRow(s, name, delay);
    var more := OutboxDrains(Exec(s, PurgePass(name, delay)));
    ExecAppend(s, PurgePass(name, delay), more);
    run := PurgePass(name, delay) + more;
  }
}
