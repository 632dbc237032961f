/**
 The bounded fan-out: tasks finish in any order and in any groups, heartbeats may time out the wait or report a
 lost lease, and the result is still the serial map in input order.
 */
module ParallelMap {
  import opened Common

  datatype Outcome<R> = Value(value: R) | Raised(error: string)

  /** The pairs handed back, or the lost lease that a heartbeat reported. */
  datatype Result<T, R> = Done(pairs: seq<(T, Option<Outcome<R>>)>) | LeaseLost

  /** Apply one after the other, keeping each failure in its item's place. */
  function SerialMap<T, R>(fn: T -> Outcome<R>, items: seq<T>): seq<(T, Option<Outcome<R>>)> {
    if items == [] then [] else [(items[0], Some(fn(items[0])))] + SerialMap(fn, items[1..])
  }

  function Unset<T, R>(items: seq<T>): seq<(T, Option<Outcome<R>>)> {
    if items == [] then [] else [(items[0], None)] + Unset(items[1..])
  }

  function Upto(n: nat): seq<nat> {
    if n == 0 then [] else Upto(n - 1) + [n - 1]
  }

  lemma {:induction false} SerialAt<T, R>(fn: T -> Outcome<R>, items: seq<T>)
    ensures |SerialMap(fn, items)| == |items|
    ensures forall i | 0 <= i < |items| :: SerialMap(fn, items)[i] == (items[i], Some(fn(items[i])))
  {
    if items != [] {
      SerialAt(fn, items[1..]);
    }
  }

  lemma {:induction false} UnsetAt<T, R>(items: seq<T>)
    ensures |Unset<T, R>(items)| == |items|
  {
    if items != [] {
      UnsetAt<T, R>(items[1..]);
    }
  }

  /** The first heartbeats all reported the lease as held. */
  ghost predicate Held(beat: nat -> bool, n: nat) {
    forall b: nat | b < n :: !beat(b)
  }

  /** Some non-empty group of pending tasks finishes, unless the wait may time out. */
  method Wait(pending: set<nat>, mayTimeOut: bool) returns (done: set<nat>)
    requires pending != {}
    ensures done <= pending && (done == {} ==> mayTimeOut)
  {
    done := {};
    var rest := pending;
    while rest != {}
      invariant rest <= pending && done <= pending
      decreases |rest|
    {
      var task :| task in rest;
      rest := rest - {task};
      if * {
        done := done + {task};
      }
    }
    if done == {} && !mayTimeOut {
      done := pending;
    }
  }

  /** The fan-out under way: the pairs so far, the tasks submitted but not finished, and what was submitted. */
  datatype Fan<T, R> = Fan(
    results: seq<(T, Option<Outcome<R>>)>, pending: set<nat>, next: nat, submitted: seq<nat>, peak: nat)

  /** Pending tasks and those finished but not yet collected fill the workers until everything is submitted. */
  ghost predicate InFlight(pending: set<nat>, done: set<nat>, next: nat, n: nat, workers: nat) {
    && pending !! done && next <= n && (forall i | i in pending :: i < next) && (forall i | i in done :: i < next)
    && |pending| + |done| <= workers && (next < n ==> |pending| + |done| == workers)
  }

  ghost predicate Collected<T, R>(
    fn: T -> Outcome<R>, items: seq<T>, results: seq<(T, Option<Outcome<R>>)>, open: set<nat>, next: nat)
    requires next <= |items|
  {
    |results| == |items| && forall i | 0 <= i < next && i !in open :: results[i] == (items[i], Some(fn(items[i])))
  }

  ghost predicate FanOk<T, R>(fn: T -> Outcome<R>, items: seq<T>, workers: nat, f: Fan<T, R>, done: set<nat>) {
    && InFlight(f.pending, done, f.next, |items|, workers) && Collected(fn, items, f.results, f.pending + done, f.next)
    && f.submitted == Upto(f.next) && f.peak == workers
  }

  /** The items whose task has not finished. */
  function Unfinished<T, R>(items: seq<T>, f: Fan<T, R>): int {
    |items| - f.next + |f.pending|
  }

  /**
   Whatever the completion order and however often the wait times out: the pairs are the serial map in input
   order with failures in place, every item is submitted exactly once and in order, and the number of tasks pending
   at once peaks at the number of workers. A lost lease, and nothing else, ends it early.
   */
  method Run<T, R>(fn: T -> Outcome<R>, items: seq<T>, maxWorkers: int, heartbeat: Option<nat -> bool>, timeouts: nat)
    returns (result: Result<T, R>, submitted: seq<nat>, peak: nat)
    ensures result.Done? ==> result.pairs == SerialMap(fn, items) && submitted == Upto(|items|)
    ensures exists k: nat :: k <= |items| && submitted == Upto(k)
    ensures items != [] ==> peak == Max(1, Min(maxWorkers, |items|))
    ensures result.LeaseLost? ==> heartbeat.Some? && exists beat: nat :: heartbeat.value(beat)
    ensures result.Done? && heartbeat.Some? ==> forall beat: nat | beat < |items| :: !heartbeat.value(beat)
  {
    if items == [] {
      assert [] == Upto(0);
      return Done([]), [], 0;
    }
    var workers: nat := Max(1, Min(maxWorkers, |items|));
    if workers == 1 && heartbeat.None? {
      var results;
      results, submitted, peak := Serially(fn, items);
      return Done(results), submitted, peak;
    }
    var f, lost := FanOut(fn, items, workers, heartbeat, timeouts);
    result := if lost then LeaseLost else Done(f.results);
    submitted, peak := f.submitted, f.peak;
  }

  /** Keep the workers busy until every task is collected or the lease is lost. */
  method FanOut<T, R>(fn: T -> Outcome<R>, items: seq<T>, workers: nat, heartbeat: Option<nat -> bool>, timeouts: nat)
    returns (f: Fan<T, R>, lost: bool)
    requires 0 < workers <= |items|
    ensures f.next <= |items| && f.submitted == Upto(f.next) && f.peak == workers
    ensures lost ==> heartbeat.Some? && exists beat: nat :: heartbeat.value(beat)
    ensures !lost ==> f.results == SerialMap(fn, items) && f.next == |items|
    ensures !lost && heartbeat.Some? ==> forall beat: nat | beat < |items| :: !heartbeat.value(beat)
  {
    f := SubmitFirst(fn, items, workers);
    lost := false;
    var beats, quiet := 0, timeouts;
    while f.pending != {}
      invariant FanOk(fn, items, workers, f, {})
      invariant heartbeat.Some? ==> |items| - Unfinished(items, f) <= beats && Held(heartbeat.value, beats)
      decreases Unfinished(items, f), quiet
    {
      var done := Wait(f.pending, heartbeat.Some? && quiet > 0);
      if done == {} {
        quiet := quiet - 1;
        beats, lost := Beat(heartbeat, beats);
        if lost {
          return;
        }
      } else {
        Finishes(fn, items, workers, f, done);
        f, beats, lost := Collect(fn, items, workers, heartbeat, f.(pending := f.pending - done), done, beats);
        if lost {
          return;
        }
      }
    }
    AllCollected(fn, items, workers, f);
  }

  /** Finished tasks leave the pending set, and so does that much of the unfinished work. */
  lemma Finishes<T, R>(fn: T -> Outcome<R>, items: seq<T>, workers: nat, f: Fan<T, R>, done: set<nat>)
    requires FanOk(fn, items, workers, f, {}) && done <= f.pending && done != {}
    ensures FanOk(fn, items, workers, f.(pending := f.pending - done), done)
    ensures 0 <= Unfinished(items, f.(pending := f.pending - done)) < Unfinished(items, f)
  {
    assert (f.pending - done) + done == f.pending + {};
  }

  lemma AllCollected<T, R>(fn: T -> Outcome<R>, items: seq<T>, workers: nat, f: Fan<T, R>)
    requires FanOk(fn, items, workers, f, {}) && f.pending == {} && workers > 0
    ensures f.results == SerialMap(fn, items) && f.next == |items|
  {
    SerialAt(fn, items);
    assert f.pending + {} == {};
  }

  /** The first wave: one task per worker. */
  method SubmitFirst<T, R>(fn: T -> Outcome<R>, items: seq<T>, workers: nat) returns (f: Fan<T, R>)
    requires workers <= |items|
    ensures FanOk(fn, items, workers, f, {}) && Unfinished(items, f) == |items|
  {
    UnsetAt<T, R>(items);
    var pending: set<nat>, submitted: seq<nat> := {}, [];
    for next := 0 to workers
      invariant submitted == Upto(next) && |pending| == next && forall i: nat :: i in pending <==> i < next
    {
      pending, submitted := pending + {next}, submitted + [next];
    }
    f := Fan(Unset(items), pending, workers, submitted, workers);
  }

  /** One finished task replaced by one submitted task, or by none when all are submitted. */
  lemma Replaces(pending: set<nat>, done: set<nat>, next: nat, n: nat, workers: nat, i: nat)
    requires InFlight(pending, done, next, n, workers) && i in done
    ensures next < n ==>
      InFlight(pending + {next}, done - {i}, next + 1, n, workers) && |pending + {next}| == |pending| + 1
    ensures next == n ==> InFlight(pending, done - {i}, next, n, workers)
  {}

  lemma Stores<T, R>(fn: T -> Outcome<R>, items: seq<T>, results: seq<(T, Option<Outcome<R>>)>, pending: set<nat>,
      done: set<nat>, next: nat, i: nat)
    requires next <= |items| && Collected(fn, items, results, pending + done, next) && i < next
    ensures
      var stored := results[i := (items[i], Some(fn(items[i])))];
      && Collected(fn, items, stored, pending + (done - {i}), next)
      && (next < |items| ==> Collected(fn, items, stored, (pending + {next}) + (done - {i}), next + 1))
  {}

  /** With the result in its place, one more task is submitted if items are left. */
  method SubmitNext<T, R>(fn: T -> Outcome<R>, items: seq<T>, workers: nat, f: Fan<T, R>, ghost done: set<nat>,
                          i: nat, stored: seq<(T, Option<Outcome<R>>)>)
    returns (g: Fan<T, R>)
    requires FanOk(fn, items, workers, f, done) && i in done
    requires stored == f.results[i := (items[i], Some(fn(items[i])))]
    ensures FanOk(fn, items, workers, g, done - {i}) && Unfinished(items, g) == Unfinished(items, f)
  {
    Replaces(f.pending, done, f.next, |items|, workers, i);
    Stores(fn, items, f.results, f.pending, done, f.next, i);
    g := f.(results := stored);
    if f.next < |items| {
      var pending := f.pending + {f.next};
      var submitted := f.submitted + [f.next];
      g := Fan(stored, pending, f.next + 1, submitted, Max(f.peak, |pending|));
    }
  }

  /** Report progress, and learn whether the lease was lost. */
  method Beat(heartbeat: Option<nat -> bool>, beats: nat) returns (next: nat, lost: bool)
    requires heartbeat.Some? ==> Held(heartbeat.value, beats)
    ensures lost ==> heartbeat.Some? && next == beats && heartbeat.value(beats)
    ensures !lost && heartbeat.Some? ==> next == beats + 1 && Held(heartbeat.value, next)
  {
    next, lost := beats, false;
    if heartbeat.Some? {
      lost := heartbeat.value(beats);
      next := if lost then beats else beats + 1;
    }
  }

  /** Collect a finished group: store each result, beat, and only with the lease still held submit one more task. */
  method Collect<T, R>(fn: T -> Outcome<R>, items: seq<T>, workers: nat, heartbeat: Option<nat -> bool>,
                       f: Fan<T, R>, finished: set<nat>, beats0: nat)
    returns (g: Fan<T, R>, beats: nat, lost: bool)
    requires FanOk(fn, items, workers, f, finished)
    requires heartbeat.Some? ==> Held(heartbeat.value, beats0)
    ensures g.next <= |items| && g.submitted == Upto(g.next) && g.peak == workers
    ensures lost ==> heartbeat.Some? && heartbeat.value(beats) && |g.pending| < workers
    ensures !lost ==> FanOk(fn, items, workers, g, {}) && Unfinished(items, g) == Unfinished(items, f)
    ensures !lost && heartbeat.Some? ==> beats == beats0 + |finished| && Held(heartbeat.value, beats)
  {
    g, beats, lost := f, beats0, false;
    var done := finished;
    while done != {}
      invariant FanOk(fn, items, workers, g, done) && Unfinished(items, g) == Unfinished(items, f)
      invariant heartbeat.Some? ==> beats + |done| == beats0 + |finished| && Held(heartbeat.value, beats)
      decreases |done|
    {
      var i :| i in done;
      var stored := g.results[i := (items[i], Some(fn(items[i])))];
      beats, lost := Beat(heartbeat, beats);
      if lost {
        return g.(results := stored), beats, true;
      }
      g := SubmitNext(fn, items, workers, g, done, i, stored);
      done := done - {i};
    }
  }

  /** With one worker and no heartbeat the items run one after the other on the calling thread. */
  method Serially<T, R>(fn: T -> Outcome<R>, items: seq<T>)
    returns (results: seq<(T, Option<Outcome<R>>)>, submitted: seq<nat>, peak: nat)
    ensures results == SerialMap(fn, items) && submitted == Upto(|items|) && (items != [] ==> peak == 1)
  {
    SerialAt(fn, items);
    UnsetAt<T, R>(items);
    results, submitted, peak := Unset(items), [], 0;
    for i := 0 to |items|
      invariant Collected(fn, items, results, {}, i) && submitted == Upto(i) && (i > 0 ==> peak == 1)
    {
      results := results[i := (items[i], Some(fn(items[i])))];
      submitted, peak := submitted + [i], 1;
    }
  }
}
