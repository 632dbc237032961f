/**
 Concrete runs: two companies swap a name inside a pass, and a prepared summary is the other company's; after
 one more write it is nobody's.
 */
module CompanyPageRenameRace {
  import opened Common
  import opened CompanyPages
  import opened CompanyPageRuns

  /** A summary is its protocol's own value, if it has one. */
  function RaceProgram(): Program {
    Program((digest, section, pid, name) => (seen => RaceAction(pid, seen)), 1)
  }

  function RaceAction(pid: nat, seen: seq<Option<Value>>): Action {
    if seen == [] then Ask(SummaryProtocol(pid)) else Finish(if seen[0].Some? then seen[0].value else "none")
  }

  function RaceCode(): Code {
    Code("d", map[], 1, "1")
  }

  function RaceConfig(): Config {
    Config(Timing(0.0, 30.0, 60.0), Timing(120.0, 300.0, 900.0), 86400.0)
  }

  function Names(one: string, two: string): map<nat, string> {
    map[1 := one, 2 := two]
  }

  lemma NamesSwap(one: string, two: string, first: string, second: string)
    ensures Names(one, two).Keys == {1, 2} && {1, 2} == {2, 1}
    ensures Names(one, two)[1 := first][2 := second] == Names(first, second) == Names(one, two)[2 := second][1 := first]
  {}

  function RaceStart(): World {
    var data := Data(map[SummaryProtocol(2) := "old"], map[SummaryProtocol(2) := 0], map[], Names("B", "X"), 1);
    World(RaceConfig(), RaceProgram(), 0.0, data, map[], map[], {})
  }

  lemma ExecTwo(w: World, a: Event, b: Event)
    ensures Exec(w, [a, b]) == Step(Step(w, a), b)
  {
    assert [a, b][1..] == [b];
    var none: seq<Event> := [b][1..];
    assert Exec(Step(Step(w, a), b), none) == Step(Step(w, a), b);
    assert Exec(Step(w, a), [b]) == Step(Step(w, a), b);
  }

  /** The pass of the race: the summary unit comes first. */
  predicate Picked(w: World, units: seq<seq<Section>>) {
    && w.passes.Keys == {0} && w.passes[0].code == RaceCode() && w.passes[0].pid == 1 && w.passes[0].name == "B"
    && w.passes[0].units == units && w.passes[0].draft.companyName == "B"
  }

  /** Protocol 2 has this summary and protocol 1 has none; no summary scope of protocol 1's was ever written. */
  predicate Summaries(d: Data, two: string) {
    && SummaryAll !in d.tokens && SummaryProtocol(1) !in d.tokens && SummaryProtocol(1) !in d.values
    && SummaryProtocol(2) in d.values && d.values[SummaryProtocol(2)] == two
  }

  ghost predicate SummaryOfTwo(page: Page) {
    && page.companyName == "B" && Summary in page.sections
    && var st := page.sections[Summary];
       && st.body == "old" && st.revisions == map[SummaryAll := None, SummaryProtocol(1) := None]
       && st.started == 0.0 && st.digest == "d" && st.schema == 0 && st.epoch == 1 && st.chains == "1"
  }

  lemma SummaryIsOwnValue(d: Data, pid: nat)
    ensures
      var value := Lookup(d.values, SummaryProtocol(pid));
      RunStrategy(RaceProgram().recipe("d", Summary, pid, ""), d, [], 1)
      == Some((if value.Some? then value.value else "none", {SummaryProtocol(pid)}))
  {
    var s := RaceProgram().recipe("d", Summary, pid, "");
    var seen := [] + [Lookup(d.values, SummaryProtocol(pid))];
    assert s([]) == Ask(SummaryProtocol(pid)) && seen != [];
    assert RunStrategy(s, d, seen, 0).Some?;
    assert {} + {SummaryProtocol(pid)} == {SummaryProtocol(pid)};
  }

  lemma SeedAndPick(w: World)
    requires w == RaceStart()
    ensures
      var t := Exec(w, [Seed(1), Pick(0, RaceCode(), 1)]);
      && Picked(t, [[Summary], [Overview, Functions]]) && t.data == w.data && t.prog == w.prog && t.now == 0.0
  {
    ExecTwo(w, Seed(1), Pick(0, RaceCode(), 1));
    var u := Step(w, Seed(1));
    assert u.pages[1] == Page(map[], "B", 0, 0.0);
    assert Units(u.cfg, RaceCode(), 1, u.pages[1], u.data, u.now) == [[Summary]] + [[Overview] + [Functions]];
    assert [Overview] + [Functions] == [Overview, Functions];
    assert [[Summary]] + [[Overview] + [Functions]] == [[Summary], [Overview, Functions]];
  }

  lemma OneRename(w: World, pid: nat, name: string, two: string)
    requires Summaries(w.data, two) && forall p | p in w.data.names :: w.data.names[p] != name
    ensures
      var t := Step(w, Rename(pid, name));
      t.data.names == w.data.names[pid := name] && Summaries(t.data, two) && t == w.(data := t.data)
  {
    assert Named(w.data, name).None?;
  }

  /** Two renames swap who the name denotes; neither touches a summary scope. */
  lemma Swap(w: World, first: nat, retired: string, second: nat, taken: string, two: string)
    requires w.data.names.Keys == {first, second} && first != second && w.data.names[first] == taken
        && Summaries(w.data, two)
    requires retired != taken && retired != w.data.names[second] && w.data.names[second] != taken
    ensures
      var t := Exec(w, [Rename(first, retired), Rename(second, taken)]);
      && t.data.names == w.data.names[first := retired][second := taken] && Summaries(t.data, two)
      && t == w.(data := t.data)
  {
    ExecTwo(w, Rename(first, retired), Rename(second, taken));
    OneRename(w, first, retired, two);
    var u := Step(w, Rename(first, retired));
    assert forall p | p in u.data.names :: p in w.data.names.Keys || p == first;
    OneRename(u, second, taken, two);
  }

  lemma BuildOthersSummary(w: World)
    requires Picked(w, [[Summary], [Overview, Functions]]) && w.data.names == Names("C", "B")
        && Summaries(w.data, "old")
    requires w.prog == RaceProgram() && w.now == 0.0
    ensures
      var t := Step(w, Build(0, true));
      Picked(t, [[Overview, Functions]]) && SummaryOfTwo(t.passes[0].draft) && t.data == w.data && t.prog == w.prog
          && t.now == 0.0
  {
    assert UniqueNames(w.data);
    NamedIs(w.data, 2);
    var rest: seq<Section> := [Summary][1..];
    assert rest == [];
    assert BuildUnit(w.prog, RaceCode(), 1, "B", rest, w.data, w.now) == Some(map[]);
    SummaryIsOwnValue(w.data, 2);
    assert BuildSection(w.prog, "d", Summary, "B", w.data) == Some(("old", {SummaryProtocol(2)}));
    assert DependenciesFor(1, Summary) + {} == {SummaryAll, SummaryProtocol(1)};
    assert w.passes[0].units[1..] == [[Overview, Functions]];
  }

  lemma FailStructuralAndCommit(w: World)
    requires Picked(w, [[Overview, Functions]]) && SummaryOfTwo(w.passes[0].draft)
    ensures
      var t := Exec(w, [Build(0, false), Commit(0)]);
      1 in t.pages && SummaryOfTwo(t.pages[1]) && t.data == w.data && t.prog == w.prog && t.now == w.now
  {
    ExecTwo(w, Build(0, false), Commit(0));
    var none: seq<seq<Section>> := w.passes[0].units[1..];
    assert none == [];
  }

  /** The names are back, and the page of protocol 1 shows what protocol 2's summary was. */
  ghost predicate RaceOver(w: World, two: string) {
    && 1 in w.pages && SummaryOfTwo(w.pages[1]) && w.data.names == Names("B", "D") && Summaries(w.data, two)
    && w.prog == RaceProgram() && w.now == 0.0
  }

  lemma OthersSummaryIsServed(w: World, two: string)
    requires RaceOver(w, two)
    ensures Served(w, RaceCode(), Summary, "B") == Some(Response("old", Prepared, 0.0))
  {
    assert UniqueNames(w.data);
    NamedIs(w.data, 1);
  }

  lemma CurrentSummaries(w: World, two: string)
    requires RaceOver(w, two)
    ensures CurrentSection(w, "d", Summary, 1, "B") == Some("none") == Rebuild(w, RaceCode(), Summary, "B")
    ensures CurrentSection(w, "d", Summary, 2, "B") == Some(two)
  {
    assert UniqueNames(w.data);
    NamedIs(w.data, 1);
    SummaryIsOwnValue(w.data, 1);
    SummaryIsOwnValue(w.data, 2);
  }

  function Opening(): seq<Event> {
    [Seed(1), Pick(0, RaceCode(), 1)] + [Rename(1, "C"), Rename(2, "B")]
  }

  function Publication(): seq<Event> {
    [Build(0, true), Tick(0.0)] + [Build(0, false), Commit(0)]
  }

  function SwapBack(): seq<Event> {
    [Rename(2, "D"), Rename(1, "B")]
  }

  lemma OpeningRuns(w: World)
    requires w == RaceStart()
    ensures
      var t := Exec(w, Opening());
      && Picked(t, [[Summary], [Overview, Functions]]) && t.data.names == Names("C", "B") && Summaries(t.data, "old")
      && t.prog == RaceProgram() && t.now == 0.0
  {
    SeedAndPick(w);
    var u := Exec(w, [Seed(1), Pick(0, RaceCode(), 1)]);
    NamesSwap("B", "X", "C", "B");
    Swap(u, 1, "C", 2, "B", "old");
    ExecAppend(w, [Seed(1), Pick(0, RaceCode(), 1)], [Rename(1, "C"), Rename(2, "B")]);
  }

  lemma PublicationRuns(w: World)
    requires Picked(w, [[Summary], [Overview, Functions]]) && w.data.names == Names("C", "B")
        && Summaries(w.data, "old")
    requires w.prog == RaceProgram() && w.now == 0.0
    ensures
      var t := Exec(w, Publication());
      1 in t.pages && SummaryOfTwo(t.pages[1]) && t.data == w.data && t.prog == w.prog && t.now == 0.0
  {
    BuildOthersSummary(w);
    ExecTwo(w, Build(0, true), Tick(0.0));
    FailStructuralAndCommit(Exec(w, [Build(0, true), Tick(0.0)]));
    ExecAppend(w, [Build(0, true), Tick(0.0)], [Build(0, false), Commit(0)]);
  }

  lemma SwapBackRuns(w: World)
    requires 1 in w.pages && SummaryOfTwo(w.pages[1]) && w.data.names == Names("C", "B") && Summaries(w.data, "old")
    requires w.prog == RaceProgram() && w.now == 0.0
    ensures RaceOver(Exec(w, SwapBack()), "old")
  {
    NamesSwap("C", "B", "B", "D");
    Swap(w, 2, "D", 1, "B", "old");
  }

  lemma RaceRuns() returns (run: seq<Event>)
    ensures RaceOver(Exec(RaceStart(), run), "old")
  {
    run := Opening() + Publication() + SwapBack();
    OpeningRuns(RaceStart());
    var swapped := Exec(RaceStart(), Opening());
    PublicationRuns(swapped);
    SwapBackRuns(Exec(swapped, Publication()));
    ExecAppend(RaceStart(), Opening(), Publication());
    ExecAppend(RaceStart(), Opening() + Publication(), SwapBack());
  }

  lemma RaceProgramIsLocal()
    ensures SummaryLocal(RaceProgram())
  {}

  /** A response labelled prepared that is not what a rebuild gives: renames committed between pick and snapshot. */
  lemma RenamesInsideAPassMislabel() returns (run: seq<Event>)
    ensures SummaryLocal(RaceProgram())
    ensures
      var t := Exec(RaceStart(), run);
      var r := Served(t, RaceCode(), Summary, "B");
      r.Some? && r.value.source == Prepared && Rebuild(t, RaceCode(), Summary, "B") != Some(r.value.body)
  {
    RaceProgramIsLocal();
    run := RaceRuns();
    OthersSummaryIsServed(Exec(RaceStart(), run), "old");
    CurrentSummaries(Exec(RaceStart(), run), "old");
  }

  /** One more write of the other company's summary, and the prepared response is no protocol's current summary. */
  lemma PreparedSummaryMayBeNobodys() returns (run: seq<Event>)
    ensures
      var t := Exec(RaceStart(), run);
      var r := Served(t, RaceCode(), Summary, "B");
      && r.Some? && r.value.source == Prepared
      && forall pid | pid in t.data.names :: CurrentSection(t, "d", Summary, pid, "B") != Some(r.value.body)
  {
    var race := RaceRuns();
    var write := Write(map[SummaryProtocol(2) := "new"]);
    run := race + [write];
    var w := Exec(RaceStart(), race);
    ExecAppend(RaceStart(), race, [write]);
    var none: seq<Event> := [write][1..];
    assert Exec(w, [write]) == Exec(Step(w, write), none) == Step(w, write);
    var t := Step(w, write);
    assert RaceOver(t, "new");
    OthersSummaryIsServed(t, "new");
    CurrentSummaries(t, "new");
  }
}
