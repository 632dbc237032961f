/**
 The sliding-window limiter: hits at a non-decreasing clock, with lazily pruned buckets, periodic sweeps and a
 cap on the number of keys, against a naive limiter that keeps the whole history of accepted hits.
 */
module RateLimit {
  import opened Common

  type Key = string

  datatype Limiter = Limiter(
    limit: int, window: real, maxKeys: int, sweepEvery: nat, buckets: map<Key, seq<real>>, hits: nat, sweeps: nat)

  datatype Decision = Accepted | Limited(wait: int) | Capped(wait: int)

  /** Truncation toward zero. */
  function Trunc(x: real): int {
    if x >= 0.0 then x.Floor else -(-x).Floor
  }

  function Prune(bucket: seq<real>, window: real, now: real): seq<real> {
    if bucket != [] && bucket[0] + window < now then Prune(bucket[1..], window, now) else bucket
  }

  /** Every bucket pruned, and the empty ones gone. */
  function Swept(buckets: map<Key, seq<real>>, window: real, now: real): map<Key, seq<real>> {
    map k | k in buckets && Prune(buckets[k], window, now) != [] :: Prune(buckets[k], window, now)
  }

  function BucketOf(buckets: map<Key, seq<real>>, key: Key): seq<real> {
    if key in buckets then buckets[key] else []
  }

  /** Count the hit and sweep when it is the turn. */
  function Counted(s: Limiter, now: real): Limiter {
    if s.hits + 1 >= s.sweepEvery then s.(hits := 0, sweeps := s.sweeps + 1, buckets := Swept(s.buckets, s.window, now))
    else s.(hits := s.hits + 1)
  }

  function Hit(s: Limiter, key: Key, now: real): (Limiter, Decision) {
    if s.limit <= 0 then (s, Accepted) else
    var t := Counted(s, now);
    if key !in t.buckets && |t.buckets| >= s.maxKeys then (t, Capped(Max(1, Trunc(s.window)))) else
    var bucket := Prune(BucketOf(t.buckets, key), s.window, now);
    if |bucket| >= s.limit
        then (t.(buckets := t.buckets[key := bucket]), Limited(Max(0, Trunc(bucket[0] + s.window - now)) + 1))
    else (t.(buckets := t.buckets[key := bucket + [now]]), Accepted)
  }

  function Fresh(limit: int, window: real, maxKeys: int, sweepEvery: int): Limiter {
    Limiter(limit, window, maxKeys, Max(1, sweepEvery), map[], 0, 0)
  }

  /** The limiter with the full history of its accepted hits, the number of hits so far and the last time. */
  datatype World = World(s: Limiter, accepted: map<Key, seq<real>>, total: nat, clock: real)

  datatype Call = Call(key: Key, now: real)

  function History(w: World, key: Key): seq<real> {
    BucketOf(w.accepted, key)
  }

  function Step(w: World, c: Call): World {
    var (s, d) := Hit(w.s, c.key, c.now);
    World(s, if d == Accepted then w.accepted[c.key := History(w, c.key) + [c.now]] else w.accepted, w.total + 1, c.now)
  }

  function Exec(w: World, calls: seq<Call>): World
    decreases |calls|
  {
    if calls == [] then w else Exec(Step(w, calls[0]), calls[1..])
  }

  predicate ClockRuns(clock: real, calls: seq<Call>)
    decreases |calls|
  {
    calls == [] || (clock <= calls[0].now && ClockRuns(calls[0].now, calls[1..]))
  }

  /** The accepted hits a naive limiter still counts: those at most a window ago. */
  function InWindow(history: seq<real>, window: real, now: real): seq<real> {
    if history == [] then []
    else (if history[0] + window < now then [] else [history[0]]) + InWindow(history[1..], window, now)
  }

  /** The naive limiter: accept while fewer than `limit` accepted hits lie in the window. */
  function Naive(limit: int, window: real, history: seq<real>, now: real): Decision
    requires limit > 0
  {
    var recent := InWindow(history, window, now);
    if |recent| >= limit then Limited(Max(0, Trunc(recent[0] + window - now)) + 1) else Accepted
  }

  predicate Sorted(h: seq<real>) {
    forall i, j | 0 <= i < j < |h| :: h[i] <= h[j]
  }

  /** The bucket is the history without a prefix of hits that have left the window. */
  ghost predicate Remembers(history: seq<real>, bucket: seq<real>, window: real, clock: real) {
    exists n: nat :: RemembersFrom(history, bucket, window, clock, n)
  }

  predicate RemembersFrom(history: seq<real>, bucket: seq<real>, window: real, clock: real, n: nat) {
    n <= |history| && history[n..] == bucket && Outside(history, n, window, clock)
  }

  /** The first `n` hits have left the window. */
  predicate Outside(history: seq<real>, n: nat, window: real, now: real)
    requires n <= |history|
  {
    forall i | 0 <= i < n :: history[i] + window < now
  }

  predicate Upto(history: seq<real>, now: real) {
    forall i | 0 <= i < |history| :: history[i] <= now
  }

  /** Of any `limit + 1` accepted hits in a row, the last came more than a window after the first. */
  predicate Spaced(history: seq<real>, window: real, limit: int) {
    forall i, j | 0 <= i < j < |history| && j - i >= limit :: history[i] + window < history[j]
  }

  ghost predicate HistoryOk(w: World, key: Key) {
    && Sorted(History(w, key)) && Upto(History(w, key), w.clock)
    && Remembers(History(w, key), BucketOf(w.s.buckets, key), w.s.window, w.clock)
    && Spaced(History(w, key), w.s.window, w.s.limit)
  }

  ghost predicate Inv(w: World) {
    && w.s.limit > 0
    && (forall key :: HistoryOk(w, key))
    && |w.s.buckets| <= Max(0, w.s.maxKeys)
    && w.s.hits < w.s.sweepEvery && w.s.sweeps * w.s.sweepEvery + w.s.hits == w.total
  }

  lemma {:induction false} PruneIsInWindow(bucket: seq<real>, window: real, now: real)
    requires Sorted(bucket)
    ensures Prune(bucket, window, now) == InWindow(bucket, window, now)
  {
    if bucket != [] {
      PruneIsInWindow(bucket[1..], window, now);
      if bucket[0] + window >= now {
        AllInWindow(bucket, window, now);
      }
    }
  }

  lemma {:induction false} AllInWindow(h: seq<real>, window: real, now: real)
    requires forall i | 0 <= i < |h| :: h[i] + window >= now
    ensures InWindow(h, window, now) == h
  {
    if h != [] {
      AllInWindow(h[1..], window, now);
    }
  }

  lemma {:induction false} ForgottenIsOutside(history: seq<real>, n: nat, window: real, now: real)
    requires n <= |history| && Outside(history, n, window, now)
    ensures InWindow(history, window, now) == InWindow(history[n..], window, now)
  {
    if n == 0 {
      assert history[0..] == history;
    } else {
      ForgottenIsOutside(history[1..], n - 1, window, now);
      assert history[1..][n - 1..] == history[n..];
    }
  }

  /** Pruning what the bucket remembers gives exactly what the naive limiter counts. */
  lemma BucketCountsTheWindow(history: seq<real>, bucket: seq<real>, window: real, clock: real, now: real)
    requires Sorted(history) && Remembers(history, bucket, window, clock) && clock <= now
    ensures Prune(bucket, window, now) == InWindow(history, window, now)
  {
    var n: nat :| RemembersFrom(history, bucket, window, clock, n);
    ForgottenIsOutside(history, n, window, now);
    PruneIsInWindow(bucket, window, now);
  }

  lemma {:induction false} PruneDrops(bucket: seq<real>, window: real, now: real) returns (n: nat)
    ensures n <= |bucket| && bucket[n..] == Prune(bucket, window, now) && Outside(bucket, n, window, now)
    ensures n < |bucket| ==> bucket[n] + window >= now
  {
    if bucket != [] && bucket[0] + window < now {
      var m := PruneDrops(bucket[1..], window, now);
      n := m + 1;
      assert forall i | 0 < i < n :: bucket[i] == bucket[1..][i - 1];
    } else {
      n := 0;
      assert bucket[0..] == bucket;
    }
  }

  lemma SliceOfSlice<T>(h: seq<T>, n: nat, m: nat)
    requires n + m <= |h|
    ensures h[n..][m..] == h[n + m..]
  {}

  lemma PrunedStillRemembers(history: seq<real>, bucket: seq<real>, window: real, clock: real, now: real)
    requires Remembers(history, bucket, window, clock) && clock <= now
    ensures Remembers(history, Prune(bucket, window, now), window, now)
  {
    var n: nat :| RemembersFrom(history, bucket, window, clock, n);
    var m := PruneDrops(bucket, window, now);
    SliceOfSlice(history, n, m);
    forall i | 0 <= i < n + m ensures history[i] + window < now {
      if i >= n {
        assert history[i] == bucket[i - n];
      }
    }
    assert RemembersFrom(history, Prune(bucket, window, now), window, now, n + m);
  }

  lemma LaterStillRemembers(history: seq<real>, bucket: seq<real>, window: real, clock: real, now: real)
    requires Remembers(history, bucket, window, clock) && clock <= now
    ensures Remembers(history, bucket, window, now)
  {
    var n: nat :| RemembersFrom(history, bucket, window, clock, n);
    assert RemembersFrom(history, bucket, window, now, n);
  }

  /** Counting a hit, with or without a sweep, changes what no key remembers. */
  lemma SweepsAreInvisible(w: World, key: Key, now: real)
    requires HistoryOk(w, key) && w.clock <= now
    ensures Remembers(History(w, key), BucketOf(Counted(w.s, now).buckets, key), w.s.window, now)
  {
    PrunedStillRemembers(History(w, key), BucketOf(w.s.buckets, key), w.s.window, w.clock, now);
    LaterStillRemembers(History(w, key), BucketOf(w.s.buckets, key), w.s.window, w.clock, now);
  }

  lemma SweptIsSmaller(s: Limiter, now: real)
    ensures |Counted(s, now).buckets| <= |s.buckets|
  {
    SubsetIsNoLarger(Counted(s, now).buckets.Keys, s.buckets.Keys);
  }

  /** A decision that is not a cap rejection is the naive limiter's, wait included. */
  lemma DecidesLikeNaive(w: World, c: Call)
    requires Inv(w) && w.clock <= c.now && !Hit(w.s, c.key, c.now).1.Capped?
    ensures Hit(w.s, c.key, c.now).1 == Naive(w.s.limit, w.s.window, History(w, c.key), c.now)
  {
    assert HistoryOk(w, c.key);
    SweepsAreInvisible(w, c.key, c.now);
    BucketCountsTheWindow(History(w, c.key), BucketOf(Counted(w.s, c.now).buckets, c.key), w.s.window, c.now, c.now);
  }

  lemma AcceptRemembers(history: seq<real>, bucket: seq<real>, window: real, now: real) returns (n: nat)
    requires Remembers(history, bucket, window, now)
    ensures RemembersFrom(history, Prune(bucket, window, now), window, now, n)
    ensures RemembersFrom(history + [now], Prune(bucket, window, now) + [now], window, now, n)
  {
    PrunedStillRemembers(history, bucket, window, now, now);
    n :| RemembersFrom(history, Prune(bucket, window, now), window, now, n);
    assert (history + [now])[n..] == history[n..] + [now];
    assert Outside(history + [now], n, window, now);
  }

  lemma AcceptKeepsSorted(history: seq<real>, now: real)
    requires Sorted(history) && Upto(history, now)
    ensures Sorted(history + [now]) && Upto(history + [now], now)
  {}

  lemma AcceptKeepsSpaced(history: seq<real>, n: nat, window: real, limit: int, now: real)
    requires Spaced(history, window, limit) && n <= |history| < n + limit && Outside(history, n, window, now)
    ensures Spaced(history + [now], window, limit)
  {}

  lemma HitKeepsHistory(w: World, c: Call, key: Key)
    requires Inv(w) && w.clock <= c.now
    ensures HistoryOk(Step(w, c), key)
  {
    assert HistoryOk(w, key);
    SweepsAreInvisible(w, key, c.now);
    if key == c.key {
      var bucket := BucketOf(Counted(w.s, c.now).buckets, key);
      PrunedStillRemembers(History(w, key), bucket, w.s.window, c.now, c.now);
      if Hit(w.s, c.key, c.now).1 == Accepted {
        var n := AcceptRemembers(History(w, key), bucket, w.s.window, c.now);
        AcceptKeepsSorted(History(w, key), c.now);
        AcceptKeepsSpaced(History(w, key), n, w.s.window, w.s.limit, c.now);
      }
    }
  }

  lemma SweepTurns(sweeps: nat, every: nat)
    ensures (sweeps + 1) * every == sweeps * every + every
  {}

  lemma StepKeepsInv(w: World, c: Call)
    requires Inv(w) && w.clock <= c.now
    ensures Inv(Step(w, c))
  {
    forall key ensures HistoryOk(Step(w, c), key) {
      HitKeepsHistory(w, c, key);
    }
    SweptIsSmaller(w.s, c.now);
    SweepTurns(w.s.sweeps, w.s.sweepEvery);
  }

  lemma {:induction false} RunKeepsInv(w: World, calls: seq<Call>)
    requires Inv(w) && ClockRuns(w.clock, calls)
    ensures Inv(Exec(w, calls))
    ensures Exec(w, calls).s == Exec(w, calls).s.(limit := w.s.limit, window := w.s.window, maxKeys := w.s.maxKeys,
        sweepEvery := w.s.sweepEvery)
    ensures Exec(w, calls).total == w.total + |calls|
    decreases |calls|
  {
    if calls != [] {
      StepKeepsInv(w, calls[0]);
      RunKeepsInv(Step(w, calls[0]), calls[1..]);
    }
  }
}
