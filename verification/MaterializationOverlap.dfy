/** When two builds of one key may overlap, and how long a caller polls. */
module MaterializationOverlap {
  import opened Common
  import opened Materialization

  predicate EventAt(e: Event, version: nat) {
    (e.Enter? ==> e.version == version) && (e.Publish? ==> e.offer.version == version)
  }

  /** The whole run is at one analyzer version. */
  predicate AtVersion(run: seq<Event>, version: nat) {
    forall e | e in run :: EventAt(e, version)
  }

  predicate IsBuilding(c: Caller) {
    c.phase.Claimed?
  }

  /** Why the later of two overlapping builds was allowed to start. */
  predicate OverlapAllowed(cfg: Config, earlier: Caller, later: Caller)
    requires IsBuilding(earlier) && IsBuilding(later)
  {
    || later.phase.at >= earlier.phase.at + cfg.staleness
    || later.phase.at >= later.entered + cfg.staleness
    || earlier.phase.no < later.phase.landing
  }

  /** While a caller builds, its key's row is ready, or holds a claim at least as young, or a failure landed since. */
  predicate ClaimStands(w: World, version: nat, c: Caller)
    requires IsBuilding(c)
  {
    && c.phase.at <= w.now && c.phase.no < w.claims && c.key in w.rows
    && (|| ReadyAt(w.rows[c.key], version)
        || (w.rows[c.key].status == Building && w.rows[c.key].startedAt.Some?
            && w.rows[c.key].startedAt.value >= c.phase.at)
        || Landing(w, c.key) > c.phase.no)
  }

  /** A waiting caller's next poll is due no later than one interval after its deadline. */
  predicate WakesInTime(cfg: Config, c: Caller)
    requires c.phase.Polling?
  {
    c.entered <= c.phase.wakeAt <= c.entered + cfg.staleness + cfg.poll
  }

  predicate CallerOk(w: World, version: nat, c: Caller) {
    && c.version == version
    && (IsBuilding(c) ==> ClaimStands(w, version, c))
    && (c.phase.Polling? ==> WakesInTime(w.cfg, c))
  }

  predicate Claims(w: World, version: nat) {
    && w.cfg.staleness >= 0.0 && w.cfg.poll >= 0.0
    && (forall id | id in w.callers :: CallerOk(w, version, w.callers[id]))
  }

  predicate OverlapsAllowed(w: World) {
    forall a, b | a in w.callers && b in w.callers && IsBuilding(w.callers[a]) && IsBuilding(w.callers[b])
                  && w.callers[a].key == w.callers[b].key && w.callers[a].phase.no < w.callers[b].phase.no ::
      OverlapAllowed(w.cfg, w.callers[a], w.callers[b])
  }

  /** A claim is refused while any live claim is young, so the new claim is allowed beside every build in flight. */
  lemma NewClaimIsAllowed(w: World, version: nat, id: nat, prefer: Option<Key>, other: Caller)
    requires Claims(w, version) && id in w.callers && Polled(w, id, prefer).callers[id].phase.Claimed?
    requires IsBuilding(other) && CallerOk(w, version, other) && other.key == w.callers[id].key
    ensures OverlapAllowed(w.cfg, other, Polled(w, id, prefer).callers[id])
  {}

  lemma PollKeepsClaims(w: World, version: nat, id: nat, prefer: Option<Key>)
    requires Claims(w, version) && id in w.callers && w.callers[id].phase.Polling?
        && w.callers[id].phase.wakeAt <= w.now
    ensures Claims(Polled(w, id, prefer), version)
  {
    var t := Polled(w, id, prefer);
    assert CallerOk(w, version, w.callers[id]);
    forall x | x in t.callers ensures CallerOk(t, version, t.callers[x]) {
      assert CallerOk(w, version, w.callers[x]);
    }
  }

  lemma PollKeepsOverlaps(w: World, version: nat, id: nat, prefer: Option<Key>)
    requires Claims(w, version) && OverlapsAllowed(w) && id in w.callers && w.callers[id].phase.Polling?
    ensures OverlapsAllowed(Polled(w, id, prefer))
  {
    var t := Polled(w, id, prefer);
    forall a, b | a in t.callers && b in t.callers && IsBuilding(t.callers[a]) && IsBuilding(t.callers[b])
                  && t.callers[a].key == t.callers[b].key && t.callers[a].phase.no < t.callers[b].phase.no
      ensures OverlapAllowed(t.cfg, t.callers[a], t.callers[b])
    {
      if b == id {
        NewClaimIsAllowed(w, version, id, prefer, w.callers[a]);
      }
    }
  }

  /** A claim stands through any step that keeps its row, makes it ready, or lands a failure on it. */
  lemma ClaimStillStands(w: World, t: World, version: nat, c: Caller)
    requires CallerOk(w, version, c)
    requires t.cfg == w.cfg && t.now >= w.now && t.claims == w.claims && w.rows.Keys <= t.rows.Keys
    requires c.key in w.rows ==> || (t.rows[c.key] == w.rows[c.key] && Landing(t, c.key) == Landing(w, c.key))
                                 || ReadyAt(t.rows[c.key], version) || Landing(t, c.key) == t.claims
    ensures CallerOk(t, version, c)
  {}

  lemma StepKeepsClaims(w: World, version: nat, e: Event)
    requires Claims(w, version) && EventAt(e, version)
    ensures Claims(Step(w, e), version)
  {
    if e.Poll? {
      if e.id in w.callers && w.callers[e.id].phase.Polling? && w.callers[e.id].phase.wakeAt <= w.now {
        PollKeepsClaims(w, version, e.id, e.prefer);
      }
    } else {
      var t := Step(w, e);
      forall x | x in t.callers ensures CallerOk(t, version, t.callers[x]) {
        if x in w.callers {
          assert CallerOk(w, version, w.callers[x]);
          RowsMoveOn(w, version, e, w.callers[x].key);
          ClaimStillStands(w, t, version, w.callers[x]);
        }
      }
    }
  }

  /** Apart from a poll, a step leaves a row alone, makes it ready at this version, or lands a failure on it. */
  lemma RowsMoveOn(w: World, version: nat, e: Event, key: Key)
    requires Claims(w, version) && EventAt(e, version) && !e.Poll?
    ensures
      var t := Step(w, e);
      && t.cfg == w.cfg && t.now >= w.now && t.claims == w.claims && w.rows.Keys <= t.rows.Keys
      && (key in w.rows ==> || (t.rows[key] == w.rows[key] && Landing(t, key) == Landing(w, key))
                            || ReadyAt(t.rows[key], version) || Landing(t, key) == t.claims)
  {
    if e.Finish? && e.id in w.callers {
      assert CallerOk(w, version, w.callers[e.id]);
    }
  }

  lemma StepKeepsOverlaps(w: World, version: nat, e: Event)
    requires Claims(w, version) && OverlapsAllowed(w)
    ensures OverlapsAllowed(Step(w, e))
  {
    if e.Poll? && e.id in w.callers && w.callers[e.id].phase.Polling? {
      PollKeepsOverlaps(w, version, e.id, e.prefer);
    }
  }

  /**
   At one analyzer version, in every run: two builds of one key overlap only if the later claim came at least
   the staleness period after the earlier, or its caller had been in the call that long, or a failure landed on
   the key between the two claims; and a polling caller's next poll is due by its deadline plus one interval.
   */
  lemma {:induction false} OverlapsNeedAReason(w: World, version: nat, run: seq<Event>)
    requires Claims(w, version) && OverlapsAllowed(w) && AtVersion(run, version)
    ensures Claims(Exec(w, run), version) && OverlapsAllowed(Exec(w, run))
    decreases |run|
  {
    if run != [] {
      assert run[0] in run;
      StepKeepsClaims(w, version, run[0]);
      StepKeepsOverlaps(w, version, run[0]);
      OverlapsNeedAReason(Step(w, run[0]), version, run[1..]);
    }
  }

  /** The first poll at or after the deadline ends the loop. */
  lemma PollAtDeadlineLeaves(w: World, id: nat, prefer: Option<Key>)
    requires id in w.callers && w.callers[id].phase.Polling? && w.callers[id].phase.wakeAt <= w.now
    requires w.now >= w.callers[id].entered + w.cfg.staleness
    ensures !Step(w, Poll(id, prefer)).callers[id].phase.Polling?
  {}
}
