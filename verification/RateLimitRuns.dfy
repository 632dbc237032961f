/** What every run of the sliding-window limiter guarantees its callers. */
module RateLimitRuns {
  import opened Common
  import opened RateLimit

  function Begin(limit: int, window: real, maxKeys: int, sweepEvery: int, start: real): World {
    World(Fresh(limit, window, maxKeys, sweepEvery), map[], 0, start)
  }

  lemma RunIsOk(limit: int, window: real, maxKeys: int, sweepEvery: int, start: real, calls: seq<Call>)
    requires limit > 0 && ClockRuns(start, calls)
    ensures
      var w := Exec(Begin(limit, window, maxKeys, sweepEvery, start), calls);
      Inv(w) && w.s.limit == limit && w.s.window == window && w.s.maxKeys == maxKeys && w.total == |calls|
  {
    var w := Begin(limit, window, maxKeys, sweepEvery, start);
    assert forall key :: HistoryOk(w, key) by {
      forall key ensures HistoryOk(w, key) {
        assert RemembersFrom(History(w, key), BucketOf(w.s.buckets, key), window, start, 0);
      }
    }
    RunKeepsInv(w, calls);
  }

  lemma {:induction false} MaxOf(xs: set<int>) returns (m: int)
    requires xs != {}
    ensures m in xs && forall x | x in xs :: x <= m
  {
    var x := SomeOf(xs);
    m := x;
    if xs != {x} {
      var rest := MaxOf(xs - {x});
      m := Max(x, rest);
      assert forall y | y in xs :: y == x || y in xs - {x};
    }
  }

  /** Integers less than `spread` apart are at most `spread` many. */
  lemma {:induction false} CloseTogetherIsFew(xs: set<int>, spread: int)
    requires 0 <= spread && forall x, y | x in xs && y in xs :: y - x < spread
    ensures |xs| <= spread
    decreases spread
  {
    if xs != {} {
      var m := MaxOf(xs);
      assert m - m < spread;
      forall x, y | x in xs - {m} && y in xs - {m} ensures y - x < spread - 1 {
        assert m - x < spread;
      }
      CloseTogetherIsFew(xs - {m}, spread - 1);
    }
  }

  /** Any closed window holds at most `limit` accepted hits of a key. */
  lemma WindowsHoldAtMostLimit(limit: int, window: real, maxKeys: int, sweepEvery: int, start: real, calls: seq<Call>,
      key: Key, from: real)
    requires limit > 0 && ClockRuns(start, calls)
    ensures
      var h := History(Exec(Begin(limit, window, maxKeys, sweepEvery, start), calls), key);
      |set i | 0 <= i < |h| && from <= h[i] <= from + window| <= limit
  {
    RunIsOk(limit, window, maxKeys, sweepEvery, start, calls);
    var w := Exec(Begin(limit, window, maxKeys, sweepEvery, start), calls);
    assert HistoryOk(w, key);
    var h := History(w, key);
    CloseTogetherIsFew((set i | 0 <= i < |h| && from <= h[i] <= from + window), limit);
  }

  /** Sweeps, pruning and dropped buckets are invisible: every other decision is the naive limiter's. */
  lemma DecisionsAreNaive(limit: int, window: real, maxKeys: int, sweepEvery: int, start: real, calls: seq<Call>,
      c: Call)
    requires limit > 0 && ClockRuns(start, calls)
        && Exec(Begin(limit, window, maxKeys, sweepEvery, start), calls).clock <= c.now
    ensures
      var w := Exec(Begin(limit, window, maxKeys, sweepEvery, start), calls);
      var decision := Hit(w.s, c.key, c.now).1;
      || decision == Naive(limit, window, History(w, c.key), c.now)
      || (decision.Capped? && maxKeys <= |w.s.buckets| && InWindow(History(w, c.key), window, c.now) == [])
  {
    RunIsOk(limit, window, maxKeys, sweepEvery, start, calls);
    var w := Exec(Begin(limit, window, maxKeys, sweepEvery, start), calls);
    if Hit(w.s, c.key, c.now).1.Capped? {
      assert HistoryOk(w, c.key);
      SweepsAreInvisible(w, c.key, c.now);
      BucketCountsTheWindow(History(w, c.key), [], window, c.now, c.now);
      SweptIsSmaller(w.s, c.now);
    } else {
      DecidesLikeNaive(w, c);
    }
  }

  /** The decisions of a whole run. */
  function Decisions(w: World, calls: seq<Call>): seq<Decision>
    decreases |calls|
  {
    if calls == [] then [] else [Hit(w.s, calls[0].key, calls[0].now).1] + Decisions(Step(w, calls[0]), calls[1..])
  }

  /** A limiter that keeps every accepted hit of every key and never sweeps, prunes or caps. */
  function NaiveDecisions(limit: int, window: real, accepted: map<Key, seq<real>>, calls: seq<Call>): seq<Decision>
    requires limit > 0
    decreases |calls|
  {
    if calls == [] then [] else
    var c := calls[0];
    var d := Naive(limit, window, BucketOf(accepted, c.key), c.now);
    var after := if d == Accepted then accepted[c.key := BucketOf(accepted, c.key) + [c.now]] else accepted;
    [d] + NaiveDecisions(limit, window, after, calls[1..])
  }

  lemma {:induction false} SameDecisions(w: World, calls: seq<Call>)
    requires Inv(w) && ClockRuns(w.clock, calls) && forall d | d in Decisions(w, calls) :: !d.Capped?
    ensures Decisions(w, calls) == NaiveDecisions(w.s.limit, w.s.window, w.accepted, calls)
    decreases |calls|
  {
    if calls != [] {
      var t := Step(w, calls[0]);
      assert Decisions(w, calls)[0] in Decisions(w, calls);
      forall d | d in Decisions(t, calls[1..]) ensures d in Decisions(w, calls) {}
      DecidesLikeNaive(w, calls[0]);
      StepKeepsInv(w, calls[0]);
      SameDecisions(t, calls[1..]);
    }
  }

  /** A run without a cap rejection is decided, hit by hit, as the naive limiter decides it. */
  lemma RunsAreNaive(limit: int, window: real, maxKeys: int, sweepEvery: int, start: real, calls: seq<Call>)
    requires limit > 0 && ClockRuns(start, calls)
    requires forall d | d in Decisions(Begin(limit, window, maxKeys, sweepEvery, start), calls) :: !d.Capped?
    ensures Decisions(Begin(limit, window, maxKeys, sweepEvery, start), calls) == NaiveDecisions(limit, window, map[],
        calls)
  {
    var none: seq<Call> := [];
    RunIsOk(limit, window, maxKeys, sweepEvery, start, none);
    SameDecisions(Begin(limit, window, maxKeys, sweepEvery, start), calls);
  }

  lemma HitKeepsKeys(s: Limiter, c: Call, keys: set<Key>)
    requires s.buckets.Keys <= keys && c.key in keys && |keys| <= s.maxKeys
    ensures Hit(s, c.key, c.now).0.buckets.Keys <= keys && !Hit(s, c.key, c.now).1.Capped?
    ensures Hit(s, c.key, c.now).0.maxKeys == s.maxKeys
  {
    var kept := Counted(s, c.now).buckets.Keys;
    if c.key !in kept {
      SubsetIsNoLarger(kept + {c.key}, keys);
    }
  }

  /** If no more keys ever call than the cap allows, no hit is rejected at the cap. */
  lemma {:induction false} FewKeysAreNeverCapped(w: World, calls: seq<Call>, keys: set<Key>)
    requires w.s.buckets.Keys <= keys && |keys| <= w.s.maxKeys && forall i | 0 <= i < |calls| :: calls[i].key in keys
    ensures forall d | d in Decisions(w, calls) :: !d.Capped?
    decreases |calls|
  {
    if calls != [] {
      HitKeepsKeys(w.s, calls[0], keys);
      FewKeysAreNeverCapped(Step(w, calls[0]), calls[1..], keys);
    }
  }

  /** At most one full sweep per `sweepEvery` hits. */
  lemma SweepsAreRare(limit: int, window: real, maxKeys: int, sweepEvery: int, start: real, calls: seq<Call>)
    requires limit > 0 && ClockRuns(start, calls)
    ensures
      var s := Exec(Begin(limit, window, maxKeys, sweepEvery, start), calls).s;
      s.sweeps * s.sweepEvery <= |calls|
  {
    RunIsOk(limit, window, maxKeys, sweepEvery, start, calls);
  }

  lemma FloorIsBelow(x: real)
    requires x >= 0.0
    ensures x < (Max(0, Trunc(x)) + 1) as real
  {}

  /** The first hit of a full bucket leaves the window within the wait the caller was told. */
  lemma WaitIsLongEnough(bucket: seq<real>, window: real, now: real, wait: int, later: real)
    requires bucket != [] && bucket[0] + window >= now && wait == Max(0, Trunc(bucket[0] + window - now)) + 1
    requires later >= now + wait as real
    ensures bucket[0] + window < later && |Prune(bucket, window, later)| < |bucket|
  {
    FloorIsBelow(bucket[0] + window - now);
    var n := PruneDrops(bucket, window, later);
  }

  lemma {:induction false} PrunedHeadIsInside(bucket: seq<real>, window: real, now: real)
    ensures Prune(bucket, window, now) != [] ==> Prune(bucket, window, now)[0] + window >= now
  {
    if bucket != [] && bucket[0] + window < now {
      PrunedHeadIsInside(bucket[1..], window, now);
    }
  }

  lemma FewInWindow(history: seq<real>, n: nat, window: real, limit: int, now: real)
    requires Spaced(history, window, limit) && Upto(history, now) && limit > 0
    requires n < |history| && history[n] + window >= now
    ensures |history| - n <= limit
  {
    assert history[|history| - 1] <= now;
  }

  lemma BucketIsFull(w: World, key: Key, now: real)
    requires Inv(w) && w.clock <= now && Hit(w.s, key, now).1.Limited?
    ensures
      var bucket := Prune(BucketOf(Counted(w.s, now).buckets, key), w.s.window, now);
      |bucket| == w.s.limit && bucket[0] + w.s.window >= now
  {
    var bucket := Prune(BucketOf(Counted(w.s, now).buckets, key), w.s.window, now);
    PrunedHeadIsInside(BucketOf(Counted(w.s, now).buckets, key), w.s.window, now);
    assert HistoryOk(w, key);
    SweepsAreInvisible(w, key, now);
    PrunedStillRemembers(History(w, key), BucketOf(Counted(w.s, now).buckets, key), w.s.window, now, now);
    var n: nat :| RemembersFrom(History(w, key), bucket, w.s.window, now, n);
    FewInWindow(History(w, key), n, w.s.window, w.s.limit, now);
  }

  /** A limited caller that waits as told, with no hits in between, is accepted. */
  lemma WaitingIsEnough(w: World, key: Key, now: real, wait: int, later: real)
    requires Inv(w) && w.clock <= now && Hit(w.s, key, now).1 == Limited(wait) && later >= now + wait as real
    ensures Hit(Hit(w.s, key, now).0, key, later).1 == Accepted
  {
    BucketIsFull(w, key, now);
    var t := Hit(w.s, key, now).0;
    var bucket := t.buckets[key];
    WaitIsLongEnough(bucket, w.s.window, now, wait, later);
    var u := Counted(t, later);
    if key !in u.buckets {
      DroppedKeyMakesRoom(w, key, now, later);
    } else if t.hits + 1 >= t.sweepEvery {
      PruneTwice(bucket, w.s.window, later);
    }
  }

  lemma {:induction false} PruneTwice(bucket: seq<real>, window: real, now: real)
    ensures Prune(Prune(bucket, window, now), window, now) == Prune(bucket, window, now)
  {
    if bucket != [] && bucket[0] + window < now {
      PruneTwice(bucket[1..], window, now);
    }
  }

  lemma DroppedKeyMakesRoom(w: World, key: Key, now: real, later: real)
    requires Inv(w) && w.clock <= now && Hit(w.s, key, now).1.Limited?
    requires key !in Counted(Hit(w.s, key, now).0, later).buckets
    ensures |Counted(Hit(w.s, key, now).0, later).buckets| < w.s.maxKeys
  {
    var t := Hit(w.s, key, now).0;
    StepKeepsInv(w, Call(key, now));
    var kept := Counted(t, later).buckets.Keys;
    assert key in t.buckets.Keys && key !in kept;
    SubsetIsNoLarger(kept + {key}, t.buckets.Keys);
  }

  /** Some key's hits have all left the window by then. */
  ghost predicate SomeKeyExpires(s: Limiter, now: real) {
    exists k | k in s.buckets :: Prune(s.buckets[k], s.window, now) == []
  }

  /**
   A new key turned away at the cap is told to wait for a window's length. Retrying then, or at any later time
   with no hits in between, is accepted exactly when a sweep falls on the retry and some key has expired.
   */
  lemma CappedRetry(w: World, key: Key, now: real, later: real)
    requires Inv(w) && w.clock <= now <= later && Hit(w.s, key, now).1.Capped?
    ensures
      var t := Hit(w.s, key, now).0;
      Hit(t, key, later).1 == Accepted <==> t.hits + 1 >= t.sweepEvery && SomeKeyExpires(t, later)
  {
    var t := Hit(w.s, key, now).0;
    StepKeepsInv(w, Call(key, now));
    var kept := Counted(t, later).buckets.Keys;
    SubsetIsNoLarger(kept, t.buckets.Keys);
    if t.hits + 1 >= t.sweepEvery && SomeKeyExpires(t, later) {
      var k :| k in t.buckets && Prune(t.buckets[k], t.window, later) == [];
      SubsetIsNoLarger(kept + {k}, t.buckets.Keys);
    } else {
      assert kept == t.buckets.Keys;
    }
  }

  /** So the wait told at the cap is no promise: with one key allowed, a second key is refused again after it. */
  lemma CappedRetryCanFail()
    ensures
      var w := Exec(Begin(1, 60.0, 1, 4096, 0.0), [Call("a", 0.0)]);
      var d := Hit(w.s, "b", 0.0);
      d.1 == Capped(60) && Hit(d.0, "b", 60.0).1 == Capped(60)
  {
    var b := Begin(1, 60.0, 1, 4096, 0.0);
    var w := Step(b, Call("a", 0.0));
    assert Exec(b, [Call("a", 0.0)]) == Exec(w, []) == w;
    assert w.s.buckets.Keys == {"a"};
    assert |w.s.buckets| == |w.s.buckets.Keys|;
  }

  /** The times at which a key called. */
  function CallTimes(calls: seq<Call>, key: Key): seq<real>
    decreases |calls|
  {
    if calls == [] then [] else (if calls[0].key == key then [calls[0].now] else []) + CallTimes(calls[1..], key)
  }

  /** A limit of zero or less switches the limiter off: every call is accepted and nothing is kept. */
  lemma {:induction false} SwitchedOffAcceptsAll(w: World, calls: seq<Call>, key: Key)
    requires w.s.limit <= 0
    ensures Exec(w, calls).s == w.s && History(Exec(w, calls), key) == History(w, key) + CallTimes(calls, key)
    decreases |calls|
  {
    if calls != [] {
      SwitchedOffAcceptsAll(Step(w, calls[0]), calls[1..], key);
    }
  }
}
