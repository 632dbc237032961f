/** The pool's own bookkeeping in place, and the loop that watches one isolated call until it is decided. */
module ComputeIsolation {
  import opened Common
  import opened ComputePool

  /** Cumulative processor seconds and resident bytes of a child. */
  datatype Sample = Sample(cpu: real, rss: nat)

  datatype Reading = Full(content: string) | Ended | Unreadable

  /** What one turn of the loop can see: the pipe, the exit status, the usage and the lease. */
  datatype Observation = Observation(reading: Option<Reading>, exited: bool, sample: Option<Sample>, leaseLost: bool)

  datatype Budget = Budget(memory: nat, cpu: real)

  datatype Verdict =
    | Got(content: string) | NoReply | CannotRead | OverMemory(used: nat) | OverCpu(seconds: real) | LostLease

  predicate MemoryOver(o: Observation, b: Budget) {
    o.sample.Some? && o.sample.value.rss > b.memory
  }

  predicate CpuOver(o: Observation, b: Budget, cpu0: real) {
    o.sample.Some? && o.sample.value.cpu - cpu0 > b.cpu
  }

  /** The turn lets the call go on. */
  predicate Undecided(o: Observation, b: Budget, cpu0: real) {
    o.reading.None? && !o.exited && !MemoryOver(o, b) && !CpuOver(o, b, cpu0) && !o.leaseLost
  }

  /**
   The verdict of a turn tells what it saw, and a reply in the pipe is never thrown away for anything else seen with
   it.
   */
  predicate Justified(v: Verdict, o: Observation, b: Budget, cpu0: real) {
    match v
    case Got(content) => o.reading == Some(Full(content))
    case NoReply => o.reading == Some(Ended) || (o.reading.None? && o.exited)
    case CannotRead => o.reading == Some(Unreadable)
    case OverMemory(used) => o.reading.None? && !o.exited && MemoryOver(o, b) && used == o.sample.value.rss
    case OverCpu(seconds) => o.reading.None? && !o.exited && !MemoryOver(o, b) && CpuOver(o, b, cpu0)
        && seconds == o.sample.value.cpu - cpu0
    case LostLease => o.reading.None? && !o.exited && !MemoryOver(o, b) && !CpuOver(o, b, cpu0) && o.leaseLost
  }

  /** The largest resident size sampled in these turns, starting from the baseline. */
  function Peak(base: nat, turns: seq<Observation>): nat {
    if turns == [] then base else
    var before := Peak(base, turns[..|turns| - 1]);
    var o := turns[|turns| - 1];
    if o.sample.Some? then Max(before, o.sample.value.rss) else before
  }

  /** Watch a call until a turn decides it; every earlier turn saw nothing decisive. */
  method Watch(turns: seq<Observation>, budget: Budget, baseline: Option<Sample>)
      returns (verdict: Option<Verdict>, turn: nat, peak: nat)
    ensures turn <= |turns|
    ensures
      var cpu0 := if baseline.Some? then baseline.value.cpu else 0.0;
      && (forall i | 0 <= i < turn :: Undecided(turns[i], budget, cpu0))
      && (verdict.None? ==> turn == |turns|)
      && (verdict.Some? ==> turn < |turns| && Justified(verdict.value, turns[turn], budget, cpu0))
    ensures
      var base := if baseline.Some? then baseline.value.rss else 0;
      peak == if verdict.Some? && turns[turn].reading.None? && !turns[turn].exited then Peak(base, turns[..turn + 1])
          else Peak(base, turns[..turn])
  {
    var cpu0 := if baseline.Some? then baseline.value.cpu else 0.0;
    ghost var base := if baseline.Some? then baseline.value.rss else 0;
    peak := if baseline.Some? then baseline.value.rss else 0;
    turn := 0;
    while turn < |turns|
      invariant turn <= |turns| && peak == Peak(base, turns[..turn])
      invariant forall i | 0 <= i < turn :: Undecided(turns[i], budget, cpu0)
    {
      var o := turns[turn];
      assert turns[..turn + 1][..turn] == turns[..turn];
      if o.reading.Some? {
        verdict := Some(match o.reading.value
          case Full(content) => Got(content)
          case Ended => NoReply
          case Unreadable => CannotRead);
        return;
      }
      if o.exited {
        return Some(NoReply), turn, peak;
      }
      verdict := None;
      if o.sample.Some? {
        peak := Max(peak, o.sample.value.rss);
        if o.sample.value.rss > budget.memory {
          verdict := Some(OverMemory(o.sample.value.rss));
        } else if o.sample.value.cpu - cpu0 > budget.cpu {
          verdict := Some(OverCpu(o.sample.value.cpu - cpu0));
        }
      }
      if verdict.None? && o.leaseLost {
        verdict := Some(LostLease);
      }
      if verdict.Some? {
        return;
      }
      turn := turn + 1;
    }
    verdict := None;
  }

  /** How many children at the top of the stack are stale. */
  function StaleTop(idle: seq<nat>, stale: nat -> bool): nat
    ensures StaleTop(idle, stale) <= |idle|
  {
    if idle == [] || !stale(idle[|idle| - 1]) then 0 else 1 + StaleTop(idle[..|idle| - 1], stale)
  }

  /** Pop and forget that many children. */
  function PopMany(s: Pool, count: nat): Pool
    decreases count
  {
    if count == 0 then s else PopMany(PopStaleStep(s), count - 1)
  }

  /** That many of the pool model's own events. */
  function Pops(count: nat): seq<Event> {
    seq(count, _ => PopStale)
  }

  lemma {:induction false} PopManyIsARun(s: Pool, count: nat)
    ensures PopMany(s, count) == Exec(s, Pops(count))
    decreases count
  {
    if count > 0 {
      assert Pops(count)[1..] == Pops(count - 1);
      PopManyIsARun(PopStaleStep(s), count - 1);
    }
  }

  lemma {:induction false} PoppedIdle(s: Pool, count: nat)
    requires count <= |s.idle|
    ensures PopMany(s, count).idle == s.idle[..|s.idle| - count] && PopMany(s, count).jobs == s.jobs
    decreases count
  {
    if count > 0 {
      PoppedIdle(PopStaleStep(s), count - 1);
    }
  }

  lemma {:induction false} PopOne(s: Pool, stale: nat -> bool)
    requires s.idle != [] && stale(s.idle[|s.idle| - 1])
    ensures
      var t := PopStaleStep(s);
      PopMany(s, StaleTop(s.idle, stale)) == PopMany(t, StaleTop(t.idle, stale))
  {
    var rest := s.idle[..|s.idle| - 1];
    var count := StaleTop(rest, stale);
    assert PopStaleStep(s).idle == rest && StaleTop(s.idle, stale) == 1 + count;
    assert PopMany(s, 1 + count) == PopMany(PopStaleStep(s), count);
  }

  /** The pool's lists in place; what the children and the jobs are up to is the run model's. */
  class ChildPool {
    const maxIdle: nat
    var idle: seq<nat>
    var live: set<nat>
    var next: nat
    ghost var forgotten: set<nat>
    ghost var children: map<nat, Child>
    ghost var jobs: map<nat, Job>

    ghost function View(): Pool
      reads this
    {
      Pool(maxIdle, idle, live, forgotten, children, next, jobs)
    }

    constructor (maxIdle: nat)
      ensures View() == Empty(maxIdle)
    {
      this.maxIdle, idle, live, next, forgotten, children, jobs := maxIdle, [], {}, 0, {}, map[], map[];
    }

    method Forget(c: nat)
      modifies this`live, this`forgotten
      ensures View() == ComputePool.Forget(old(View()), c)
    {
      live, forgotten := live - {c}, forgotten + {c};
    }

    /** Pop stale children off the stack, forgetting each. */
    method PopStaleTop(stale: nat -> bool)
      modifies this`idle, this`live, this`forgotten
      ensures View() == Exec(old(View()), Pops(StaleTop(old(idle), stale)))
      ensures idle == [] || !stale(idle[|idle| - 1])
    {
      PopManyIsARun(View(), StaleTop(idle, stale));
      while idle != [] && stale(idle[|idle| - 1])
        invariant PopMany(old(View()), StaleTop(old(idle), stale)) == PopMany(View(), StaleTop(idle, stale))
        decreases |idle|
      {
        PopOne(View(), stale);
        var child := idle[|idle| - 1];
        idle := idle[..|idle| - 1];
        Forget(child);
      }
    }

    /** Take the topmost idle child that is neither dead nor stale, forgetting those above it, or start a child. */
    method Acquire(ghost job: nat, stale: nat -> bool) returns (child: nat)
      requires job in jobs && jobs[job].phase.Acquiring?
      modifies this
      ensures
        var popped := Exec(old(View()), Pops(StaleTop(old(idle), stale)));
        && View() == Step(popped, if popped.idle == [] then Spawn(job) else PopTop(job))
        && job in jobs && Held(jobs[job].phase) == Some(child)
      ensures child == old(next) || (child in old(idle) && !stale(child))
    {
      PoppedIdle(View(), StaleTop(idle, stale));
      PopManyIsARun(View(), StaleTop(idle, stale));
      PopStaleTop(stale);
      if idle == [] {
        child := next;
        next := next + 1;
        live := live + {child};
        children := children[child := Child([], None, [], true)];
      } else {
        child := idle[|idle| - 1];
        idle := idle[..|idle| - 1];
      }
      jobs := jobs[job := jobs[job].(phase := Sending(child, jobs[job].phase.retried))];
    }

    /** Push the child back, unless it is gone, too large or one too many; then it is forgotten. */
    method Release(ghost job: nat, child: nat, retire: bool)
      requires job in jobs && jobs[job].phase.Read? && jobs[job].phase.child == child
      modifies this
      ensures View() == Step(old(View()), ComputePool.Release(job, retire))
    {
      if retire || |idle| >= maxIdle {
        Forget(child);
      } else {
        idle := idle + [child];
      }
      jobs := jobs[job := jobs[job].(phase := Returned(jobs[job].phase.reply))];
    }

    /** Forget every idle child, and kill the others, which stay with their jobs. */
    method Shutdown() returns (killed: set<nat>)
      modifies this
      ensures View() == Step(Exec(old(View()), Pops(|old(idle)|)), KillLive)
      ensures idle == [] && killed == Exec(old(View()), Pops(|old(idle)|)).live
    {
      PopManyIsARun(View(), |idle|);
      while idle != []
        invariant PopMany(old(View()), |old(idle)|) == PopMany(View(), |idle|)
        decreases |idle|
      {
        var child := idle[|idle| - 1];
        idle := idle[..|idle| - 1];
        Forget(child);
      }
      killed := live;
      children := map c | c in children :: if c in live then children[c].(alive := false, working := None)
          else children[c];
      live := {};
    }
  }
}
