/** The limiter's buckets updated in place, proved against the function the run theorems are about. */
module RateLimiter {
  import opened Common
  import opened RateLimit

  class SlidingWindowRateLimiter {
    const limit: int
    const window: real
    const maxKeys: int
    const sweepEvery: nat
    var buckets: map<Key, seq<real>>
    var hits: nat
    var sweeps: nat

    function View(): Limiter
      reads this
    {
      Limiter(limit, window, maxKeys, sweepEvery, buckets, hits, sweeps)
    }

    constructor (limit: int, window: real, maxKeys: int, sweepEvery: int)
      ensures View() == Fresh(limit, window, maxKeys, sweepEvery)
    {
      this.limit, this.window, this.maxKeys := limit, window, maxKeys;
      this.sweepEvery := Max(1, sweepEvery);
      buckets, hits, sweeps := map[], 0, 0;
    }

    /** Pop expired hits from the left of one bucket. */
    method Pruned(bucket: seq<real>, now: real) returns (rest: seq<real>)
      ensures rest == Prune(bucket, window, now)
    {
      rest := bucket;
      while rest != [] && rest[0] + window < now
        invariant Prune(bucket, window, now) == Prune(rest, window, now)
        decreases |rest|
      {
        rest := rest[1..];
      }
    }

    /** Prune every bucket and delete those left empty. */
    method Sweep(now: real)
      modifies this
      ensures View() == old(View()).(hits := 0, sweeps := old(sweeps) + 1, buckets := Swept(old(buckets), window, now))
    {
      sweeps := sweeps + 1;
      hits := 0;
      var keys := buckets.Keys;
      while keys != {}
        invariant hits == 0 && sweeps == old(sweeps) + 1 && keys <= buckets.Keys && keys <= old(buckets).Keys
        invariant forall k | k in keys :: buckets[k] == old(buckets)[k]
        invariant forall k | k !in keys :: k in buckets <==> k in Swept(old(buckets), window, now)
        invariant forall k | k !in keys && k in buckets :: buckets[k] == Prune(old(buckets)[k], window, now)
        decreases |keys|
      {
        var k :| k in keys;
        var rest := Pruned(buckets[k], now);
        buckets := if rest == [] then buckets - {k} else buckets[k := rest];
        keys := keys - {k};
      }
      assert buckets == Swept(old(buckets), window, now);
    }

    method Count(now: real)
      modifies this
      ensures View() == Counted(old(View()), now)
    {
      hits := hits + 1;
      if hits >= sweepEvery {
        Sweep(now);
      }
    }

    /** One hit under the lock: nothing when within budget, else the seconds to wait. */
    method Hit(key: Key, now: real) returns (wait: Option<int>)
      modifies this
      ensures View() == RateLimit.Hit(old(View()), key, now).0
      ensures
        match RateLimit.Hit(old(View()), key, now).1
        case Accepted => wait == None
        case Limited(seconds) => wait == Some(seconds) && seconds >= 1
        case Capped(seconds) => wait == Some(seconds) && seconds >= 1
    {
      if limit <= 0 {
        return None;
      }
      Count(now);
      if key !in buckets {
        if |buckets| >= maxKeys {
          return Some(Max(1, Trunc(window)));
        }
        buckets := buckets[key := []];
      }
      var bucket := Pruned(buckets[key], now);
      if |bucket| >= limit {
        buckets := buckets[key := bucket];
        return Some(Max(0, Trunc(bucket[0] + window - now)) + 1);
      }
      buckets := buckets[key := bucket + [now]];
      return None;
    }
  }
}
