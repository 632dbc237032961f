/** The page worker's passes in place: preparing one page and purging one name, proved against the run models. */
module CompanyPageWorker {
  import opened Common
  import opened CompanyPages
  import R = CompanyPageRuns
  import P = CompanyPagePurge

  type Builder = (string, Section, string, Data) -> Option<(Payload, set<Scope>)>

  /** The snapshot a unit is built in, when, and whether its publication SQL succeeds. */
  datatype Snapshot = Snapshot(data: Data, at: real, survives: bool)

  datatype Outcome = Idle | Ready | Failed

  ghost predicate Builds(build: Builder, prog: Program) {
    forall digest, s, name, d :: build(digest, s, name, d) == BuildSection(prog, digest, s, name, d)
  }

  /** A whole pass: one unit after another, each over its own snapshot. */
  ghost function PassThrough(prog: Program, p: R.Pass, shots: seq<Snapshot>): R.Pass
    decreases |shots|
  {
    if p.units == [] || shots == [] then p
    else PassThrough(prog, R.BuildPass(prog, p, shots[0].data, shots[0].at, shots[0].survives), shots[1..])
  }

  ghost predicate Publishes(prog: Program, p: R.Pass, shot: Snapshot)
    requires p.units != []
  {
    shot.survives && BuildUnit(prog, p.code, p.pid, p.name, p.units[0], shot.data, shot.at).Some?
  }

  /** Some unit of the pass is built and published. */
  ghost predicate SomePublishes(prog: Program, p: R.Pass, shots: seq<Snapshot>)
    decreases |shots|
  {
    && p.units != [] && shots != []
    && (|| Publishes(prog, p, shots[0])
        || SomePublishes(prog, R.BuildPass(prog, p, shots[0].data, shots[0].at, shots[0].survives), shots[1..]))
  }

  function OnlyIf(changed: bool, name: string): set<string> {
    if changed then {name} else {}
  }

  /** The names whose cached pages are out of date: the page's own, once published, and the one it was renamed from. */
  function Outdated(published: bool, name: string, before: Page, after: Page): set<string> {
    OnlyIf(published, name)
    + OnlyIf(after.companyName != before.companyName && before.companyName != "", before.companyName)
  }

  /** The next unit carries the page's name, and the page had another. */
  predicate Renames(p: R.Pass, page: Page)
    requires p.units != []
  {
    Structural(p.units[0]) && page.companyName != "" && page.companyName != p.name
  }

  lemma {:induction false} UnitFails(prog: Program, code: Code, pid: nat, name: string, unit: seq<Section>, d: Data,
      now: real, i: nat)
    requires i < |unit| && BuildSection(prog, code.digest, unit[i], name, d).None?
    ensures BuildUnit(prog, code, pid, name, unit, d, now).None?
  {
    if i > 0 {
      UnitFails(prog, code, pid, name, unit[1..], d, now, i - 1);
    }
  }

  lemma {:induction false} UnitAppend(prog: Program, code: Code, pid: nat, name: string, unit: seq<Section>, s: Section,
      d: Data, now: real, last: Stored)
    requires BuildUnit(prog, code, pid, name, unit, d, now).Some? && BuildSection(prog, code.digest, s, name, d).Some?
    requires last == StoredOf(code, pid, s, BuildSection(prog, code.digest, s, name, d).value, d, now)
    ensures BuildUnit(prog, code, pid, name, unit + [s], d, now)
        == Some(BuildUnit(prog, code, pid, name, unit, d, now).value[s := last])
  {
    if unit == [] {
      assert unit + [s] == [s];
      assert BuildUnit(prog, code, pid, name, [s][1..], d, now) == Some(map[]);
      assert map[s := last] + map[] == map[][s := last];
    } else {
      assert (unit + [s])[1..] == unit[1..] + [s];
      UnitAppend(prog, code, pid, name, unit[1..], s, d, now, last);
      UpdateLast(map[unit[0] :=
          StoredOf(code, pid, unit[0], BuildSection(prog, code.digest, unit[0], name, d).value, d, now)],
                 BuildUnit(prog, code, pid, name, unit[1..], d, now).value, s, last);
    }
  }

  predicate AllPublish(run: seq<P.Event>) {
    forall i | 0 <= i < |run| :: run[i].Publish?
  }

  /** Publishing a unit puts the page's name and, with its structural sections, the name it had, out of date. */
  lemma OutdatedGrows(before: bool, page: Page, p: R.Pass, values: map<Section, Stored>, now: real)
    requires p.units != [] && (p.draft.companyName == page.companyName || p.draft.companyName == p.name)
    ensures
      var unit := p.units[0];
      Outdated(true, p.name, page, PublishUnit(p.draft, p.name, unit, values, now))
      == Outdated(before, p.name, page, p.draft) + {p.name} + OnlyIf(Renames(p, page), page.companyName)
  {}

  lemma UpdateLast<K, V>(first: map<K, V>, rest: map<K, V>, k: K, v: V)
    ensures first + rest[k := v] == (first + rest)[k := v]
  {}

  class Worker {
    var pages: map<nat, Page>
    var outbox: P.Outbox
    var tokens: nat

    constructor ()
      ensures pages == map[] && outbox == map[]
    {
      pages, outbox, tokens := map[], map[], 0;
    }

    /** Fill the columns of every section of a unit from one snapshot; one failing section fails the unit. */
    method Build(ghost prog: Program, build: Builder, code: Code, pid: nat, name: string, unit: seq<Section>, d: Data,
        started: real)
      returns (values: Option<map<Section, Stored>>)
      requires Builds(build, prog)
      ensures values == BuildUnit(prog, code, pid, name, unit, d, started)
    {
      var columns := map[];
      var i := 0;
      while i < |unit|
        invariant 0 <= i <= |unit|
        invariant BuildUnit(prog, code, pid, name, unit[..i], d, started) == Some(columns)
      {
        var built := build(code.digest, unit[i], name, d);
        if built.None? {
          UnitFails(prog, code, pid, name, unit, d, started, i);
          return None;
        }
        var stored := StoredOf(code, pid, unit[i], built.value, d, started);
        UnitAppend(prog, code, pid, name, unit[..i], unit[i], d, started, stored);
        assert unit[..i] + [unit[i]] == unit[..i + 1];
        columns := columns[unit[i] := stored];
        i := i + 1;
      }
      assert unit[..i] == unit;
      values := Some(columns);
    }

    /** Enqueue a purge under a generation no row has had. */
    method Enqueue(name: string, now: real)
      modifies this
      ensures outbox == P.Enqueue(old(outbox), name, old(tokens), now) && tokens == old(tokens) + 1
          && pages == old(pages)
    {
      outbox := outbox[name := P.Row(tokens, 0, now)];
      tokens := tokens + 1;
    }

    /** Enqueueing is one publication of the purge model. */
    method Publish(name: string, now: real, ghost run: seq<P.Event>, ghost names: set<string>, ghost before: P.Outbox,
        ghost issued: nat)
      returns (ghost longer: seq<P.Event>)
      requires EnqueuedExactly(names, before, issued) && Replays(run, before, issued)
      modifies this
      ensures pages == old(pages) && longer == run + [P.Publish(name, now)]
      ensures EnqueuedExactly(names + {name}, before, issued) && Replays(longer, before, issued)
    {
      longer := run + [P.Publish(name, now)];
      forall s: P.State | s.rows == before && s.tokens == issued
        ensures P.Exec(s, longer) == P.Step(P.Exec(s, run), P.Publish(name, now))
      {
        P.ExecAppend(s, run, [P.Publish(name, now)]);
      }
      Enqueue(name, now);
    }

    /** Enqueue the names that the publication of a unit puts out of date. */
    method Announce(p: R.Pass, page: Page, now: real, ghost run: seq<P.Event>, ghost names: set<string>,
        ghost rows: P.Outbox, ghost issued: nat)
      returns (ghost longer: seq<P.Event>)
      requires p.units != [] && AllPublish(run) && EnqueuedExactly(names, rows, issued) && Replays(run, rows, issued)
      modifies this
      ensures pages == old(pages) && AllPublish(longer) && Replays(longer, rows, issued)
      ensures EnqueuedExactly(names + {p.name} + OnlyIf(Renames(p, page), page.companyName), rows, issued)
    {
      longer := Publish(p.name, now, run, names, rows, issued);
      if Structural(p.units[0]) && page.companyName != "" && page.companyName != p.name {
        longer := Publish(page.companyName, now, longer, names + {p.name}, rows, issued);
      }
    }

    /** Build and publish the next unit of a pass, and enqueue the names its publication puts out of date. */
    method PrepareUnit(ghost prog: Program, build: Builder, p: R.Pass, page: Page, shot: Snapshot,
                       ghost run: seq<P.Event>, ghost before: bool, ghost rows: P.Outbox, ghost issued: nat)
      returns (next: R.Pass, ghost longer: seq<P.Event>, ghost published: bool)
      requires Builds(build, prog) && p.units != [] && AllPublish(run) && Replays(run, rows, issued)
      requires p.draft.companyName == page.companyName || p.draft.companyName == p.name
      requires EnqueuedExactly(Outdated(before, p.name, page, p.draft), rows, issued)
      modifies this
      ensures next == R.BuildPass(prog, p, shot.data, shot.at, shot.survives) && pages == old(pages)
      ensures published == (before || Publishes(prog, p, shot))
      ensures EnqueuedExactly(Outdated(published, p.name, page, next.draft), rows, issued)
      ensures AllPublish(longer) && Replays(longer, rows, issued)
    {
      longer, published := run, before;
      var values := Build(prog, build, p.code, p.pid, p.name, p.units[0], shot.data, shot.at);
      if shot.survives && values.Some? {
        next := p.(units := p.units[1..], draft := PublishUnit(p.draft, p.name, p.units[0], values.value, shot.at));
        longer := Announce(p, page, shot.at, run, Outdated(before, p.name, page, p.draft), rows, issued);
        published := true;
        OutdatedGrows(before, page, p, values.value, shot.at);
      } else {
        next := p.(units := p.units[1..], failed := true);
      }
    }

    /** Build and publish the units of a pass one after another. */
    method PrepareUnits(ghost prog: Program, build: Builder, start: R.Pass, shots: seq<Snapshot>)
      returns (p: R.Pass, ghost run: seq<P.Event>)
      requires Builds(build, prog) && |start.units| <= |shots|
      modifies this
      ensures pages == old(pages) && p == PassThrough(prog, start, shots)
      ensures
        var published := SomePublishes(prog, start, shots);
        && EnqueuedExactly(Outdated(published, start.name, start.draft, p.draft), old(outbox), old(tokens))
        && (!published ==> p.draft == start.draft)
      ensures !p.failed && start.units != [] ==> p.draft.attempts == 0
      ensures AllPublish(run) && Replays(run, old(outbox), old(tokens))
    {
      p, run := start, [];
      ghost var published := false;
      var i := 0;
      while p.units != []
        invariant 0 <= i && i + |p.units| <= |shots| && pages == old(pages) && p.name == start.name
        invariant PassThrough(prog, start, shots) == PassThrough(prog, p, shots[i..])
        invariant SomePublishes(prog, start, shots) <==> published || SomePublishes(prog, p, shots[i..])
        invariant p.draft.companyName == start.draft.companyName || p.draft.companyName == p.name
        invariant !published ==> p.draft == start.draft
        invariant !p.failed ==> p.units == start.units || p.draft.attempts == 0
        invariant EnqueuedExactly(Outdated(published, p.name, start.draft, p.draft), old(outbox), old(tokens))
        invariant AllPublish(run) && Replays(run, old(outbox), old(tokens))
        decreases |p.units|
      {
        assert shots[i..][0] == shots[i] && shots[i..][1..] == shots[i + 1..];
        p, run, published :=
          PrepareUnit(prog, build, p, start.draft, shots[i], run, published, old(outbox), old(tokens));
        i := i + 1;
      }
    }

    /**
     One pass over one locked page row: the row it commits is the run model's. Exactly the page's name, if anything
     was published, and the name it replaces, if the row was renamed, are enqueued under new generations, each by
     a publication of the purge model.
     */
    method RefreshPage(ghost prog: Program, build: Builder, cfg: Config, code: Code, pid: nat, name: string,
                       picked: Data, now: real, shots: seq<Snapshot>, finished: real)
      returns (outcome: Outcome, ghost run: seq<P.Event>)
      requires Builds(build, prog) && pid in pages
      requires |Units(cfg, code, pid, pages[pid], picked, now)| <= |shots|
      modifies this
      ensures
        var page := old(pages)[pid];
        var start := R.Pass(code, pid, name, Units(cfg, code, pid, page, picked, now), page, false);
        var end := PassThrough(prog, start, shots);
        if page.nextAttempt > now || start.units == [] then outcome == Idle && pages == old(pages)
            && outbox == old(outbox)
        else
          && pages == old(pages)[pid := R.Committed(end, page.attempts, finished)]
          && outcome == (if end.failed then Failed else Ready)
          && EnqueuedExactly(
              Outdated(SomePublishes(prog, start, shots), name, page, pages[pid]), old(outbox), old(tokens))
      ensures outcome == Ready ==> pages[pid].attempts == 0
      ensures outcome == Failed ==>
        && pages[pid].attempts == old(pages)[pid].attempts + 1
        && pages[pid].nextAttempt == finished + Backoff(old(pages)[pid].attempts) as real
      ensures pages[pid].sections != old(pages)[pid].sections ==> EnqueuedSince(name, old(tokens))
      ensures
        var before := old(pages)[pid].companyName;
        pages[pid].companyName != before && before != "" ==> EnqueuedSince(before, old(tokens))
      ensures AllPublish(run) && Replays(run, old(outbox), old(tokens))
    {
      var page := pages[pid];
      var units := Units(cfg, code, pid, page, picked, now);
      run := [];
      if page.nextAttempt > now || units == [] {
        return Idle, run;
      }
      var p;
      p, run := PrepareUnits(prog, build, R.Pass(code, pid, name, units, page, false), shots);
      pages := pages[pid := R.Committed(p, page.attempts, finished)];
      outcome := if p.failed then Failed else Ready;
    }

    ghost predicate EnqueuedSince(name: string, issued: nat)
      reads this
    {
      name in outbox && issued <= outbox[name].token < tokens && outbox[name].attempts == 0
    }

    /** The listed names, and no others, have rows with tokens issued since. */
    ghost predicate EnqueuedExactly(names: set<string>, before: P.Outbox, issued: nat)
      reads this
    {
      && issued <= tokens
      && (forall n | n in names :: EnqueuedSince(n, issued))
      && (forall n | n !in names :: Lookup(outbox, n) == Lookup(before, n))
    }

    /** The outbox and its tokens are the purge model's after these events. */
    ghost predicate Replays(run: seq<P.Event>, before: P.Outbox, issued: nat)
      reads this
    {
      forall s: P.State | s.rows == before && s.tokens == issued ::
        P.Exec(s, run).rows == outbox && P.Exec(s, run).tokens == tokens
    }

    /** The earliest due row, if any is due; `rank` is the database's order of names, which breaks ties. */
    method EarliestDue(now: real, rank: string -> int) returns (name: Option<string>)
      ensures name.Some? ==> P.EarliestDue(outbox, name.value, now)
      ensures name.Some? ==>
          forall n | n in outbox && outbox[n].due == outbox[name.value].due :: rank(name.value) <= rank(n)
      ensures name.None? ==> forall n | n in outbox :: outbox[n].due > now
    {
      name := None;
      var keys := outbox.Keys;
      while keys != {}
        invariant keys <= outbox.Keys
        invariant name.Some? ==> name.value in outbox && outbox[name.value].due <= now
        invariant name.None? ==> forall n | n in outbox && n !in keys :: outbox[n].due > now
        invariant name.Some? ==> forall n | n in outbox && n !in keys ::
          outbox[name.value].due < outbox[n].due
          || (outbox[name.value].due == outbox[n].due && rank(name.value) <= rank(n))
        decreases |keys|
      {
        var n :| n in keys;
        if outbox[n].due <= now {
          if name.None? || outbox[n].due < outbox[name.value].due
             || (outbox[n].due == outbox[name.value].due && rank(n) < rank(name.value)) {
            name := Some(n);
          }
        }
        keys := keys - {n};
      }
    }

    /** One purge pass; `meanwhile` are the names enqueued while the provider was being asked. */
    method PurgeOne(started: real, rank: string -> int, meanwhile: seq<string>, confirmed: bool, finished: real)
      returns (purged: Option<string>)
      modifies this
      ensures pages == old(pages)
      ensures purged.None? ==> outbox == old(outbox) && forall n | n in outbox :: outbox[n].due > started
      ensures purged.Some? ==>
        && P.EarliestDue(old(outbox), purged.value, started)
        && var row := old(outbox)[purged.value];
           outbox == P.Settled(EnqueuedAll(old(outbox), meanwhile, old(tokens), started),
                               P.Attempt(purged.value, row.token, row.attempts, Some(confirmed)), finished)
    {
      purged := EarliestDue(started, rank);
      if purged.None? {
        return;
      }
      var name := purged.value;
      var generation, attempts := outbox[name].token, outbox[name].attempts;
      var i := 0;
      while i < |meanwhile|
        invariant 0 <= i <= |meanwhile| && pages == old(pages)
        invariant EnqueuedAll(old(outbox), meanwhile, old(tokens), started) == EnqueuedAll(outbox, meanwhile[i..],
            tokens, started)
      {
        Enqueue(meanwhile[i], started);
        i := i + 1;
      }
      if name in outbox && outbox[name].token == generation {
        if confirmed {
          outbox := outbox - {name};
        } else {
          outbox := outbox[name := P.Row(generation, attempts + 1, finished + Backoff(attempts) as real)];
        }
      }
    }
  }

  function EnqueuedAll(rows: P.Outbox, names: seq<string>, token: nat, now: real): P.Outbox
    decreases |names|
  {
    if names == [] then rows else EnqueuedAll(P.Enqueue(rows, names[0], token, now), names[1..], token + 1, now)
  }
}
