/**
 The summary section. Its build finds its protocol by the name its pass read earlier, but records only the
 summary scopes of the page it is for, and a rename touches neither of those.
 */
module CompanyPageSummary {
  import opened Common
  import opened CompanyPages
  import opened CompanyPageRuns

  /** The page this name denotes shows this build's summary. */
  ghost predicate Shows(w: World, b: Built, name: string) {
    && b in w.history && b.section == Summary && Named(w.data, name) == Some(b.page)
    && b.page in w.pages && Summary in w.pages[b.page].sections
    && FromBuild(w.prog, w.pages[b.page].sections[Summary], b)
  }

  /** If the reader's response is labelled prepared, it is what a rebuild gives. */
  ghost predicate PreparedIsRebuild(w: World, code: Code, name: string) {
    var r := Served(w, code, Summary, name);
    r.Some? && r.value.source == Prepared ==> Rebuild(w, code, Summary, name) == Some(r.value.body)
  }

  /** A prepared summary whose build was its page's own is a rebuild. */
  lemma OwnSummaryIsCurrent(w: World, b: Built, code: Code, name: string)
    requires SnapshotOk(w.data, b.snapshot) && SummaryLocal(w.prog) && Shows(w, b, name) && Own(b)
    ensures PreparedIsRebuild(w, code, name)
  {
    var r := Served(w, code, Summary, name);
    if r.Some? && r.value.source == Prepared {
      CurrentTokensCurrentSection(w, w.pages[b.page].sections[Summary], b);
    }
  }

  // ----- the exact condition -----

  /** A pass is about to build its summary, in data any run keeps well formed. */
  ghost predicate BuildsSummaryNext(w: World, x: nat) {
    && x in w.passes && w.passes[x].units != [] && w.passes[x].units[0] == [Summary]
    && UniqueNames(w.data) && TokensIssued(w.data)
  }

  ghost function NextBuild(w: World, x: nat): Built
    requires BuildsSummaryNext(w, x)
  {
    var p := w.passes[x];
    Built(p.code, Summary, p.pid, p.name, w.data, w.now)
  }

  /** Where a run leads from this build on, if the summary builders are those of `prog`. */
  ghost function Continued(w: World, x: nat, prog: Program, run: seq<Event>): World {
    Exec(Step(w.(prog := prog), Build(x, true)), run)
  }

  /** Whatever the summary builders compute and whatever happens next, showing this build as prepared is right. */
  ghost predicate Safe(w: World, x: nat)
    requires BuildsSummaryNext(w, x)
  {
    forall prog, run, code, name |
        SummaryLocal(prog) && Shows(Continued(w, x, prog, run), NextBuild(w, x), name) ::
      PreparedIsRebuild(Continued(w, x, prog, run), code, name)
  }

  lemma StepKeepsSnapshot(w: World, e: Event, snapshot: Data)
    requires TokensIssued(w.data) && SnapshotOk(w.data, snapshot)
    ensures TokensIssued(Step(w, e).data) && SnapshotOk(Step(w, e).data, snapshot)
  {
    var t := Step(w, e);
    if e.Write? {
      TouchKeepsSnapshot(w.data, t.data, e.changes.Keys, w.now, snapshot);
    } else if e.Rename? && t.data != w.data {
      TouchKeepsSnapshot(w.data, t.data, {Protocol(e.pid)}, w.now, snapshot);
    }
  }

  lemma {:induction false} RunKeepsSnapshot(w: World, run: seq<Event>, snapshot: Data)
    requires TokensIssued(w.data) && SnapshotOk(w.data, snapshot)
    ensures SnapshotOk(Exec(w, run).data, snapshot) && Exec(w, run).prog == w.prog
    decreases |run|
  {
    if run != [] {
      StepKeepsSnapshot(w, run[0], snapshot);
      StepKeepsProgram(w, run[0]);
      RunKeepsSnapshot(Step(w, run[0]), run[1..], snapshot);
    }
  }

  lemma OwnBuildsAreSafe(w: World, x: nat)
    requires BuildsSummaryNext(w, x) && Own(NextBuild(w, x))
    ensures Safe(w, x)
  {
    forall prog, run, code, name |
        SummaryLocal(prog) && Shows(Continued(w, x, prog, run), NextBuild(w, x), name)
      ensures PreparedIsRebuild(Continued(w, x, prog, run), code, name)
    {
      var v := w.(prog := prog);
      assert SnapshotOk(v.data, w.data);
      StepKeepsSnapshot(v, Build(x, true), w.data);
      StepKeepsProgram(v, Build(x, true));
      RunKeepsSnapshot(Step(v, Build(x, true)), run, w.data);
      OwnSummaryIsCurrent(Continued(w, x, prog, run), NextBuild(w, x), code, name);
    }
  }

  // ----- the run that mislabels any other build -----

  /** Builders that give every protocol but one the same summary, without reading anything. */
  function TellsApart(page: nat): Program {
    Program((digest, section, pid, name) => (seen => Finish(if pid == page then "own" else "other")), 0)
  }

  lemma ExecOne(w: World, e: Event)
    ensures Exec(w, [e]) == Step(w, e)
  {
    var none: seq<Event> := [e][1..];
    assert Exec(Step(w, e), none) == Step(w, e);
  }

  /** The rest of the pass fails, which leaves its draft as it is. */
  lemma {:induction false} RestFails(w: World, x: nat) returns (run: seq<Event>)
    requires x in w.passes
    ensures
      var t := Exec(w, run);
      && x in t.passes && t.passes[x] == w.passes[x].(units := [], failed := t.passes[x].failed)
      && t.data == w.data && t.prog == w.prog && t.now == w.now
    decreases |w.passes[x].units|
  {
    if w.passes[x].units == [] {
      return [];
    }
    var t := Step(w, Build(x, false));
    var rest := RestFails(t, x);
    run := [Build(x, false)] + rest;
    assert run[1..] == rest;
  }

  ghost predicate SameSummaryTokens(a: Data, b: Data) {
    forall s: Scope | s == SummaryAll || s.SummaryProtocol? :: Lookup(a.tokens, s) == Lookup(b.tokens, s)
  }

  /** A rename to a name nobody has: the protocol gets it, and no summary scope is touched. */
  lemma RenameTakes(w: World, pid: nat, name: string)
    requires UniqueNames(w.data) && Named(w.data, name).None?
    ensures
      var t := Step(w, Rename(pid, name));
      && UniqueNames(t.data) && Named(t.data, name) == Some(pid) && t == w.(data := t.data)
      && t.data.names == w.data.names[pid := name] && SameSummaryTokens(w.data, t.data)
  {
    var t := Step(w, Rename(pid, name));
    assert t.data.names == w.data.names[pid := name];
    NamedIs(t.data, pid);
  }

  /** The protocol takes a name, and whoever had it another one. */
  lemma TakesName(w: World, pid: nat, name: string) returns (run: seq<Event>)
    requires UniqueNames(w.data)
    ensures
      var t := Exec(w, run);
      && UniqueNames(t.data) && Named(t.data, name) == Some(pid) && t == w.(data := t.data)
      && SameSummaryTokens(w.data, t.data)
  {
    if Named(w.data, name) == Some(pid) {
      return [];
    }
    run := [];
    var v := w;
    if Named(w.data, name).Some? {
      var holder := Named(w.data, name).value;
      var other := LongerThanAll(w.data.names);
      RenameTakes(w, holder, other);
      v := Step(w, Rename(holder, other));
      assert Named(v.data, name).None? by {
        assert forall p | p in v.data.names && v.data.names[p] == name :: p == holder;
      }
      ExecOne(w, Rename(holder, other));
      run := [Rename(holder, other)];
    }
    RenameTakes(v, pid, name);
    ExecOne(v, Rename(pid, name));
    ExecAppend(w, run, [Rename(pid, name)]);
    run := run + [Rename(pid, name)];
  }

  /** The summary a build of another protocol leaves on the page it is for. */
  ghost predicate ShowsOther(page: Page, p: Pass, w: World) {
    && page.companyName == p.draft.companyName && Summary in page.sections
    && var st := page.sections[Summary];
       && st.body == "other" && st.started == w.now && st.schema == SchemaOf(p.code, Summary)
       && st.epoch == p.code.epoch && st.chains == p.code.chains && st.digest == p.code.digest
       && st.revisions.Keys == {SummaryAll, SummaryProtocol(p.pid)}
       && forall s | s in st.revisions :: st.revisions[s] == Lookup(w.data.tokens, s)
  }

  lemma BuildsOther(w: World, x: nat)
    requires BuildsSummaryNext(w, x) && w.prog == TellsApart(w.passes[x].pid)
    requires Named(w.data, w.passes[x].name).Some? && !Own(NextBuild(w, x))
    ensures
      var t := Step(w, Build(x, true));
      && x in t.passes && ShowsOther(t.passes[x].draft, w.passes[x], w) && t.passes[x].pid == w.passes[x].pid
      && t.data == w.data && t.prog == w.prog && t.now == w.now
      && NextBuild(w, x) in t.history && FromBuild(w.prog, t.passes[x].draft.sections[Summary], NextBuild(w, x))
  {
    var p := w.passes[x];
    UnitFromBuild(w.prog, p.code, p.pid, p.name, [Summary], w.data, w.now);
    var none: seq<Section> := [Summary][1..];
    assert BuildUnit(w.prog, p.code, p.pid, p.name, none, w.data, w.now) == Some(map[]);
    assert BuildSection(w.prog, p.code.digest, Summary, p.name, w.data).value.0 == "other";
    assert Summary in [Summary];
  }

  lemma OtherIsServed(w: World, t: World, p: Pass)
    requires t.prog == TellsApart(p.pid) && t.now == w.now && SameSummaryTokens(w.data, t.data)
    requires p.pid in t.pages && ShowsOther(t.pages[p.pid], p, w) && Named(t.data, p.draft.companyName) == Some(p.pid)
    ensures !PreparedIsRebuild(t, p.code, p.draft.companyName)
  {
    assert SameCodeAndData(p.code, p.pid, Summary, t.pages[p.pid].sections[Summary], t.data);
    assert Rebuild(t, p.code, Summary, p.draft.companyName) == Some("own");
  }

  lemma {:induction false} HistoryGrows(w: World, run: seq<Event>)
    ensures w.history <= Exec(w, run).history
    decreases |run|
  {
    if run != [] {
      HistoryGrows(Step(w, run[0]), run[1..]);
    }
  }

  /** A build that found another protocol: its pass commits, its page is given its row's name, and it is mislabelled. */
  lemma OtherBuildsAreMislabelled(w: World, x: nat) returns (run: seq<Event>)
    requires BuildsSummaryNext(w, x) && Named(w.data, w.passes[x].name).Some? && !Own(NextBuild(w, x))
    ensures
      var p := w.passes[x];
      var t := Continued(w, x, TellsApart(p.pid), run);
      && Shows(t, NextBuild(w, x), p.draft.companyName)
      && !PreparedIsRebuild(t, p.code, p.draft.companyName)
  {
    var p := w.passes[x];
    var v := w.(prog := TellsApart(p.pid));
    BuildsOther(v, x);
    var built := Step(v, Build(x, true));
    var failing := RestFails(built, x);
    var finished := Exec(built, failing);
    var committed := Step(finished, Commit(x));
    var naming := TakesName(committed, p.pid, p.draft.companyName);
    run := failing + [Commit(x)] + naming;
    ExecAppend(built, failing, [Commit(x)]);
    ExecOne(finished, Commit(x));
    ExecAppend(built, failing + [Commit(x)], naming);
    HistoryGrows(built, run);
    OtherIsServed(v, Exec(committed, naming), p);
  }

  /**
   The exact condition: however the summary builders compute and whatever happens next, a summary build is rightly
   shown as prepared, if and only if the name its pass had read still denoted its page in the snapshot it built
   from.
   */
  lemma SafeIfAndOnlyIfOwn(w: World, x: nat)
    requires BuildsSummaryNext(w, x) && Named(w.data, w.passes[x].name).Some?
    ensures Safe(w, x) <==> Own(NextBuild(w, x))
  {
    if Own(NextBuild(w, x)) {
      OwnBuildsAreSafe(w, x);
    } else {
      var run := OtherBuildsAreMislabelled(w, x);
      assert SummaryLocal(TellsApart(w.passes[x].pid));
    }
  }

  /** Some open pass has its summary still to build, and this event changes whom its name denotes. */
  ghost predicate Disturbs(w: World, e: Event) {
    exists x | x in w.passes ::
      [Summary] in w.passes[x].units && Named(Step(w, e).data, w.passes[x].name) != Named(w.data, w.passes[x].name)
  }

  ghost predicate Undisturbed(w: World, run: seq<Event>)
    decreases |run|
  {
    run == [] || (!Disturbs(w, run[0]) && Undisturbed(Step(w, run[0]), run[1..]))
  }

  /** Passes with a summary to build carry their page's current name, and every recorded summary was its page's own. */
  ghost predicate NamesHeld(w: World) {
    && (forall x | x in w.passes && [Summary] in w.passes[x].units ::
        Named(w.data, w.passes[x].name) == Some(w.passes[x].pid))
    && (forall b | b in w.history && b.section == Summary :: Own(b))
  }

  lemma BuildHoldsNames(w: World, x: nat, survives: bool)
    requires Inv(w) && NamesHeld(w)
    ensures NamesHeld(Step(w, Build(x, survives)))
  {
    if x in w.passes && w.passes[x].units != [] {
      var p := w.passes[x];
      assert PassExplained(w, p) && p.units[0] in p.units;
      assert p.units == [p.units[0]] + p.units[1..];
    }
  }

  lemma StepHoldsNames(w: World, e: Event)
    requires Inv(w) && NamesHeld(w) && !Disturbs(w, e)
    ensures NamesHeld(Step(w, e))
  {
    if e.Build? {
      BuildHoldsNames(w, e.worker, e.survives);
    } else if e.Pick? && e.pid in w.data.names {
      NamedIs(w.data, e.pid);
    }
  }

  lemma {:induction false} UndisturbedRunsHoldNames(w: World, run: seq<Event>)
    requires Inv(w) && NamesHeld(w) && Undisturbed(w, run)
    ensures Inv(Exec(w, run)) && NamesHeld(Exec(w, run)) && Exec(w, run).prog == w.prog
    decreases |run|
  {
    if run != [] {
      StepKeepsInv(w, run[0]);
      StepKeepsProgram(w, run[0]);
      StepHoldsNames(w, run[0]);
      UndisturbedRunsHoldNames(Step(w, run[0]), run[1..]);
    }
  }

  /**
   While no rename changes whom the name of a pass with a summary to build denotes, prepared summaries are rebuilds.
   */
  lemma PreparedSummaryResponses(w: World, run: seq<Event>, code: Code, name: string)
    requires Inv(w) && SummaryLocal(w.prog) && NamesHeld(w) && Undisturbed(w, run)
    ensures PreparedIsRebuild(Exec(w, run), code, name)
  {
    UndisturbedRunsHoldNames(w, run);
    var t := Exec(w, run);
    if Served(t, code, Summary, name).Some? {
      var pid := Named(t.data, name).value;
      var st := t.pages[pid].sections[Summary];
      assert PageExplained(t, pid, t.pages[pid]) && SectionExplained(t, pid, Summary, st, name);
      var b :| b in t.history && b.section == Summary && b.page == pid && FromBuild(t.prog, st, b);
      OwnSummaryIsCurrent(t, b, code, name);
    }
  }
}
