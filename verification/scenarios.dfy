/**
 * Worked inputs for the resolver and the entry point, with short names so
 * that the verifier can evaluate them.
 */
module Scenarios {
  import opened Wrappers
  import opened Lexical
  import opened PyText
  import opened Manifest
  import opened Alias
  import opened FuncTests

  lemma SearchExample()
    ensures SearchTargetArg("x -- d:m s:o") == Some("d:m s:o")
  {
    var s := "x -- d:m s:o";
    assert MarkerAt(s, 2);
    assert forall j :: 0 <= j < 2 ==> !MarkerAt(s, j);
    assert '\n' !in s;
    assert FindMarker(s, 0) == Some(2);
    var c := LineFrom(s, 5);
    assert 5 + |c| == |s|;
    assert c == s[5..];
  }

  lemma ReplaceExample()
    ensures ReplaceSpaces("d:m s:o") == "d:m+s:o"
  {
    var c := "d:m s:o";
    assert forall i :: 0 <= i < |c| ==> ReplaceSpaces(c)[i] == "d:m+s:o"[i];
  }

  lemma ColonExample()
    ensures PartitionColon("d:m+s:o").2 == "m+s:o"
  {
    PartitionColonAt("d:m+s:o", 1);
  }

  lemma TargetExample()
    ensures ReplaceSpaces("d:m s:o") == "d:m+s:o"
    ensures IsWord("d:m+s:o")
    ensures PartitionColon("d:m+s:o").2 == "m+s:o"
  {
    ReplaceExample();
    PrintableIsWord("d:m+s:o");
    ColonExample();
  }

  lemma AliasOfExample()
    ensures AliasOf(Job("m", Some("x -- d:m s:o"), [])) == Some("d:m+s:o")
  {
    SearchExample();
    TargetExample();
  }

  lemma RemovalExample()
    ensures RemovalNames("d:m+s:o", "m") == ["m+s:o", "m"]
  {
    PrintableIsWord("d:m+s:o");
    ColonExample();
    RemovalNamesWord("d:m+s:o", "m");
  }

  lemma AbsorbExample()
    ensures Absorb(["m", "o"], "d:m+s:o", "m") == ["o"]
  {
    PrintableIsWord("d:m+s:o");
    ColonExample();
    AbsorbWord(["m", "o"], "d:m+s:o", "m");
    assert RemoveFirst(["m", "o"], "m+s:o") == ["m", "o"];
    assert RemoveFirst(["m", "o"], "m") == ["o"];
  }

  lemma NoDeps(checkJobs: seq<string>)
    ensures DepsToAdd([], checkJobs) == []
  {
  }

  lemma ApplyExampleTargets()
    ensures ApplyJob(State([], ["m", "o"]), "m", Job("m", Some("x -- d:m s:o"), []), []).targets == ["d:m+s:o"]
  {
    AliasOfExample();
  }

  lemma ApplyExampleBundles()
    ensures ApplyJob(State([], ["m", "o"]), "m", Job("m", Some("x -- d:m s:o"), []), []).bundles == ["o"]
  {
    AliasOfExample();
    AbsorbExample();
    NoDeps([]);
  }

  lemma ApplyExample()
    ensures ApplyJob(State([], ["m", "o"]), "m", Job("m", Some("x -- d:m s:o"), []), []) == State(["d:m+s:o"], ["o"])
  {
    ApplyExampleTargets();
    ApplyExampleBundles();
  }

  lemma VisitExample()
    ensures VisitName(State([], ["m", "o"]), "m", [Job("m", Some("x -- d:m s:o"), [])], []) == State(["d:m+s:o"], ["o"])
    ensures VisitName(State(["d:m+s:o"], ["o"]), "o", [Job("m", Some("x -- d:m s:o"), [])], []) == State(["d:m+s:o"], ["o"])
  {
    ApplyExample();
  }

  lemma RunExample()
    ensures RunVisits(State([], ["m", "o"]), ["m", "o"], [Job("m", Some("x -- d:m s:o"), [])], []) == State(["d:m+s:o"], ["o"])
  {
    var job := Job("m", Some("x -- d:m s:o"), []);
    var st1 := State(["d:m+s:o"], ["o"]);
    VisitExample();
    assert ["m", "o"][1..] == ["o"] && ["o"][1..] == [];
    assert RunVisits(st1, ["o"], [job], []) == RunVisits(st1, [], [job], []);
  }

  /**
   * Bundles `m` and `o`; a job `m` invoked with `-- d:m s:o`. The whole
   * argument becomes one target, and only the job's own name is absorbed:
   * spaces become `+` before the split, so `o` is never a removal candidate.
   */
  lemma ResolveExample()
    ensures Resolve(["m", "o"], [], [Job("m", Some("x -- d:m s:o"), [])]) == State(["d:m+s:o"], ["o"])
  {
    RunExample();
    assert [] + ["m", "o"] == ["m", "o"];
  }

  lemma AliasAbsorbsJobNameOnly()
    ensures AliasedTargets(["m", "o"], [], [Job("m", Some("x -- d:m s:o"), [])]) == ["d:m+s:o", "o"]
  {
    ResolveExample();
    assert ["d:m+s:o"] + ["o"] == ["d:m+s:o", "o"];
  }

  lemma DependencySearch()
    ensures SearchTargetArg("-- d:c") == Some("d:c")
  {
    var s := "-- d:c";
    assert MarkerAt(s, 0);
    assert FindMarker(s, 0) == Some(0);
    var c := LineFrom(s, 3);
    assert 3 + |c| == |s|;
    assert c == s[3..];
  }

  lemma DependencyTarget()
    ensures ReplaceSpaces("d:c") == "d:c"
    ensures IsWord("d:c")
    ensures PartitionColon("d:c").2 == "c"
  {
    assert forall i :: 0 <= i < 3 ==> ReplaceSpaces("d:c")[i] == "d:c"[i];
    PrintableIsWord("d:c");
    PartitionColonAt("d:c", 1);
  }

  lemma DependencyAlias()
    ensures AliasOf(Job("c", Some("-- d:c"), ["e"])) == Some("d:c")
  {
    DependencySearch();
    DependencyTarget();
  }

  lemma DependencyRemoval()
    ensures RemovalNames("d:c", "c") == ["c", "c"]
  {
    DependencyTarget();
    RemovalNamesWord("d:c", "c");
  }

  lemma DependencyAbsorb()
    ensures Absorb([], "d:c", "c") == []
  {
    assert multiset(Absorb([], "d:c", "c")) == multiset{};
  }

  lemma DependencyAdded()
    ensures DepsToAdd(["e"], ["c", "e"]) == ["e"]
  {
    assert DepsToAdd([], ["c", "e"]) == [];
  }

  lemma DependencyApplyTargets()
    ensures ApplyJob(State([], []), "c", Job("c", Some("-- d:c"), ["e"]), ["c", "e"]).targets == ["d:c"]
  {
    DependencyAlias();
  }

  lemma DependencyApplyBundles()
    ensures ApplyJob(State([], []), "c", Job("c", Some("-- d:c"), ["e"]), ["c", "e"]).bundles == ["e"]
  {
    DependencyAlias();
    DependencyAbsorb();
    DependencyAdded();
  }

  lemma DependencyApply()
    ensures ApplyJob(State([], []), "c", Job("c", Some("-- d:c"), ["e"]), ["c", "e"]) == State(["d:c"], ["e"])
  {
    DependencyApplyTargets();
    DependencyApplyBundles();
  }

  lemma DependencyRun()
    ensures RunVisits(State([], []), ["c", "e"], [Job("c", Some("-- d:c"), ["e"])], ["c", "e"]) == State(["d:c"], ["e"])
  {
    var job := Job("c", Some("-- d:c"), ["e"]);
    var st1 := State(["d:c"], ["e"]);
    DependencyApply();
    assert VisitName(State([], []), "c", [job], ["c", "e"]) == st1;
    assert VisitName(st1, "e", [job], ["c", "e"]) == st1;
    assert ["c", "e"][1..] == ["e"] && ["e"][1..] == [];
    assert RunVisits(st1, ["e"], [job], ["c", "e"]) == RunVisits(st1, [], [job], ["c", "e"]);
  }

  /**
   * A job reached as a project check job, depending on another check job:
   * the dependency joins the bundle list although the manifest never named it.
   */
  lemma DependencyResolve()
    ensures Resolve([], ["c", "e"], [Job("c", Some("-- d:c"), ["e"])]) == State(["d:c"], ["e"])
  {
    DependencyRun();
    assert ["c", "e"] + [] == ["c", "e"];
  }

  lemma DependencyJoins()
    ensures AliasedTargets([], ["c", "e"], [Job("c", Some("-- d:c"), ["e"])]) == ["d:c", "e"]
  {
    DependencyResolve();
    assert ["d:c"] + ["e"] == ["d:c", "e"];
  }

  /** A mapping whose value is an overlay list yields its key. */
  lemma OverlayYieldsKey()
    ensures ExtractTargets(Some([Dict([("baz", Overlays(["ov1"]))])])) == ["baz"]
    ensures ExtractTargets(Some([Dict([("baz", Name("qux"))])])) == ["qux"]
  {
  }

  lemma PlainBundles()
    ensures TestsBundles(map[SmokeKey := Some([Scalar("foo")]), GateKey := Some([Scalar("bar")]), DevKey := Some([])])
      == Success(["foo", "bar"])
  {
    var m := map[SmokeKey := Some([Scalar("foo")]), GateKey := Some([Scalar("bar")]), DevKey := Some([])];
    assert ExtractTargets(Some([Scalar("foo")])) == ["foo"];
    assert ExtractTargets(Some([Scalar("bar")])) == ["bar"];
    assert ExtractTargets(Some([])) == [];
    assert SmokeKey != GateKey && SmokeKey != DevKey && GateKey != DevKey;
    assert m[SmokeKey] == Some([Scalar("foo")]) && m[GateKey] == Some([Scalar("bar")]) && m[DevKey] == Some([]);
    assert ["foo"] + ["bar"] + [] == ["foo", "bar"];
  }

  lemma PlainSorted()
    ensures SortedSet(["foo", "bar"]) == ["bar", "foo"]
  {
    assert Less("bar", "foo");
    assert StrictlySorted(["bar", "foo"]);
    SortedListingUnique(SortedSet(["foo", "bar"]), ["bar", "foo"]);
  }

  /** Smoke `foo`, gate `bar`, no aliases: the output is `bar foo`. */
  lemma PlainManifest()
    ensures var m := map[SmokeKey := Some([Scalar("foo")]), GateKey := Some([Scalar("bar")]), DevKey := Some([])];
      TargetsToRun(m, [], [], ["foo", "bar"]) == Success(["bar", "foo"])
  {
    var m := map[SmokeKey := Some([Scalar("foo")]), GateKey := Some([Scalar("bar")]), DevKey := Some([])];
    PlainBundles();
    PlainSorted();
    assert SetListing(["foo", "bar"], ["foo", "bar"]);
    NoAliasOutput(m, [], [], ["foo", "bar"]);
  }

  /*
   * The hash-set listing order can change the printed names. Bundles `a`
   * and `b`, check job `x`; job `a` runs `-- a:x` and job `b` runs `-- b`
   * and depends on `x`. Visiting `a` first, `a` finds no `x` to absorb and
   * `b` then appends it; visiting `b` first, `b` appends `x` and `a`
   * absorbs it.
   */

  const JobA := Job("a", Some("-- a:x"), [])
  const JobB := Job("b", Some("-- b"), ["x"])

  lemma OrderSearch()
    ensures SearchTargetArg("-- a:x") == Some("a:x")
    ensures SearchTargetArg("-- b") == Some("b")
  {
    var s, t := "-- a:x", "-- b";
    assert MarkerAt(s, 0) && MarkerAt(t, 0);
    assert FindMarker(s, 0) == Some(0) && FindMarker(t, 0) == Some(0);
    var c, d := LineFrom(s, 3), LineFrom(t, 3);
    assert 3 + |c| == |s| && 3 + |d| == |t|;
    assert c == s[3..] && d == t[3..];
  }

  lemma OrderTargets()
    ensures ReplaceSpaces("a:x") == "a:x" && ReplaceSpaces("b") == "b"
    ensures IsWord("a:x") && IsWord("b")
    ensures PartitionColon("a:x").2 == "x" && PartitionColon("b").2 == ""
  {
    assert forall i :: 0 <= i < 3 ==> ReplaceSpaces("a:x")[i] == "a:x"[i];
    assert ReplaceSpaces("b")[0] == 'b';
    PrintableIsWord("a:x");
    PrintableIsWord("b");
    PartitionColonAt("a:x", 1);
    assert ':' !in "b";
  }

  lemma OrderAliases()
    ensures AliasOf(JobA) == Some("a:x") && AliasOf(JobB) == Some("b")
    ensures Fires(JobA, "a") && !Fires(JobA, "b") && !Fires(JobA, "x")
    ensures Fires(JobB, "b") && !Fires(JobB, "a") && !Fires(JobB, "x")
  {
    OrderSearch();
    OrderTargets();
  }

  lemma OrderAbsorbAB()
    ensures Absorb(["a", "b"], "a:x", "a") == ["b"]
  {
    OrderTargets();
    AbsorbWord(["a", "b"], "a:x", "a");
    assert RemoveFirst(["a", "b"], "x") == ["a", "b"];
    assert RemoveFirst(["a", "b"], "a") == ["b"];
  }

  lemma OrderAbsorbAX()
    ensures Absorb(["a", "x"], "a:x", "a") == []
  {
    OrderTargets();
    AbsorbWord(["a", "x"], "a:x", "a");
    assert RemoveFirst(["a", "x"], "x") == ["a"];
    assert RemoveFirst(["a"], "a") == [];
  }

  lemma OrderAbsorbB()
    ensures Absorb(["b"], "b", "b") == []
  {
    OrderTargets();
    AbsorbWord(["b"], "b", "b");
    assert RemoveFirst(["b"], "") == ["b"];
    assert RemoveFirst(["b"], "b") == [];
  }

  lemma OrderAbsorbBA()
    ensures Absorb(["b", "a"], "b", "b") == ["a"]
  {
    OrderTargets();
    AbsorbWord(["b", "a"], "b", "b");
    assert RemoveFirst(["b", "a"], "") == ["b", "a"];
    assert RemoveFirst(["b", "a"], "b") == ["a"];
  }

  lemma OrderDeps()
    ensures DepsToAdd(["x"], ["x"]) == ["x"]
    ensures DepsToAdd([], ["x"]) == []
  {
    assert DepsToAdd([], ["x"]) == [];
  }

  /** Neither of two records fires for the visited name. */
  lemma VisitSilent(st: State, jobname: string, j1: Job, j2: Job, checkJobs: seq<string>)
    requires j1.name != jobname && j2.name != jobname
    ensures VisitName(st, jobname, [j1, j2], checkJobs) == st
  {
    assert [j1, j2][1..] == [j2] && [j2][1..] == [];
  }

  /** Of two records, only the first fires for the visited name: its target is appended. */
  lemma VisitFirstTargets(st: State, jobname: string, j1: Job, j2: Job, checkJobs: seq<string>, target: string)
    requires j1.name == jobname && j2.name != jobname && AliasOf(j1) == Some(target)
    ensures VisitName(st, jobname, [j1, j2], checkJobs).targets == st.targets + [target]
  {
    assert [j1, j2][1..] == [j2] && [j2][1..] == [];
  }

  /** Of two records, only the first fires for the visited name: what it absorbs goes, its check-job dependencies come. */
  lemma VisitFirstBundles(st: State, jobname: string, j1: Job, j2: Job, checkJobs: seq<string>, target: string, kept: seq<string>, added: seq<string>)
    requires j1.name == jobname && j2.name != jobname && AliasOf(j1) == Some(target)
    requires Absorb(st.bundles, target, jobname) == kept && DepsToAdd(j1.dependencies, checkJobs) == added
    ensures VisitName(st, jobname, [j1, j2], checkJobs).bundles == kept + added
  {
    assert [j1, j2][1..] == [j2] && [j2][1..] == [];
  }

  /** Of two records, only the second fires for the visited name: its target is appended. */
  lemma VisitSecondTargets(st: State, jobname: string, j1: Job, j2: Job, checkJobs: seq<string>, target: string)
    requires j1.name != jobname && j2.name == jobname && AliasOf(j2) == Some(target)
    ensures VisitName(st, jobname, [j1, j2], checkJobs).targets == st.targets + [target]
  {
    assert [j1, j2][1..] == [j2] && [j2][1..] == [];
  }

  /** Of two records, only the second fires for the visited name: what it absorbs goes, its check-job dependencies come. */
  lemma VisitSecondBundles(st: State, jobname: string, j1: Job, j2: Job, checkJobs: seq<string>, target: string, kept: seq<string>, added: seq<string>)
    requires j1.name != jobname && j2.name == jobname && AliasOf(j2) == Some(target)
    requires Absorb(st.bundles, target, jobname) == kept && DepsToAdd(j2.dependencies, checkJobs) == added
    ensures VisitName(st, jobname, [j1, j2], checkJobs).bundles == kept + added
  {
    assert [j1, j2][1..] == [j2] && [j2][1..] == [];
  }

  lemma StateParts(st: State, targets: seq<string>, bundles: seq<string>)
    requires st.targets == targets && st.bundles == bundles
    ensures st == State(targets, bundles)
  {
  }

  /** Three visited names, each taking the state one step along. */
  lemma RunThree(st0: State, st1: State, st2: State, st3: State, n1: string, n2: string, n3: string, jobs: seq<Job>, checkJobs: seq<string>)
    requires VisitName(st0, n1, jobs, checkJobs) == st1
    requires VisitName(st1, n2, jobs, checkJobs) == st2
    requires VisitName(st2, n3, jobs, checkJobs) == st3
    ensures RunVisits(st0, [n1, n2, n3], jobs, checkJobs) == st3
  {
    var names := [n1, n2, n3];
    RunVisitsStep(st0, names, 0, jobs, checkJobs);
    RunVisitsStep(st1, names, 1, jobs, checkJobs);
    RunVisitsStep(st2, names, 2, jobs, checkJobs);
    RunVisitsStep(st3, names, 3, jobs, checkJobs);
    assert names[0..] == names;
  }

  /** The facts about the two records that the visiting steps use. */
  predicate OrderJobs(ja: Job, jb: Job) {
    && ja.name == "a" && AliasOf(ja) == Some("a:x") && DepsToAdd(ja.dependencies, ["x"]) == []
    && jb.name == "b" && AliasOf(jb) == Some("b") && DepsToAdd(jb.dependencies, ["x"]) == ["x"]
  }

  lemma OrderJobsHold()
    ensures OrderJobs(JobA, JobB)
  {
    OrderAliases();
    OrderDeps();
  }

  lemma OrderVisitX(ja: Job, jb: Job)
    requires OrderJobs(ja, jb)
    ensures VisitName(State([], ["a", "b"]), "x", [ja, jb], ["x"]) == State([], ["a", "b"])
    ensures VisitName(State([], ["b", "a"]), "x", [ja, jb], ["x"]) == State([], ["b", "a"])
  {
    VisitSilent(State([], ["a", "b"]), "x", ja, jb, ["x"]);
    VisitSilent(State([], ["b", "a"]), "x", ja, jb, ["x"]);
  }

  lemma OrderFirstVisitATargets(ja: Job, jb: Job)
    requires OrderJobs(ja, jb)
    ensures VisitName(State([], ["a", "b"]), "a", [ja, jb], ["x"]).targets == ["a:x"]
  {
    VisitFirstTargets(State([], ["a", "b"]), "a", ja, jb, ["x"], "a:x");
  }

  lemma OrderFirstVisitABundles(ja: Job, jb: Job)
    requires OrderJobs(ja, jb)
    ensures VisitName(State([], ["a", "b"]), "a", [ja, jb], ["x"]).bundles == ["b"]
  {
    OrderAbsorbAB();
    VisitFirstBundles(State([], ["a", "b"]), "a", ja, jb, ["x"], "a:x", ["b"], []);
  }

  /** With `a` visited first, `a` fires, finds no `x` to absorb and takes itself out. */
  lemma OrderFirstVisitA(ja: Job, jb: Job)
    requires OrderJobs(ja, jb)
    ensures VisitName(State([], ["a", "b"]), "a", [ja, jb], ["x"]) == State(["a:x"], ["b"])
  {
    OrderFirstVisitATargets(ja, jb);
    OrderFirstVisitABundles(ja, jb);
    StateParts(VisitName(State([], ["a", "b"]), "a", [ja, jb], ["x"]), ["a:x"], ["b"]);
  }

  lemma OrderFirstVisitBTargets(ja: Job, jb: Job)
    requires OrderJobs(ja, jb)
    ensures VisitName(State(["a:x"], ["b"]), "b", [ja, jb], ["x"]).targets == ["a:x", "b"]
  {
    VisitSecondTargets(State(["a:x"], ["b"]), "b", ja, jb, ["x"], "b");
  }

  lemma OrderFirstVisitBBundles(ja: Job, jb: Job)
    requires OrderJobs(ja, jb)
    ensures VisitName(State(["a:x"], ["b"]), "b", [ja, jb], ["x"]).bundles == ["x"]
  {
    OrderAbsorbB();
    VisitSecondBundles(State(["a:x"], ["b"]), "b", ja, jb, ["x"], "b", [], ["x"]);
  }

  /** Then `b` fires, takes itself out and appends `x`. */
  lemma OrderFirstVisitB(ja: Job, jb: Job)
    requires OrderJobs(ja, jb)
    ensures VisitName(State(["a:x"], ["b"]), "b", [ja, jb], ["x"]) == State(["a:x", "b"], ["x"])
  {
    OrderFirstVisitBTargets(ja, jb);
    OrderFirstVisitBBundles(ja, jb);
    StateParts(VisitName(State(["a:x"], ["b"]), "b", [ja, jb], ["x"]), ["a:x", "b"], ["x"]);
  }

  lemma OrderSecondVisitBTargets(ja: Job, jb: Job)
    requires OrderJobs(ja, jb)
    ensures VisitName(State([], ["b", "a"]), "b", [ja, jb], ["x"]).targets == ["b"]
  {
    VisitSecondTargets(State([], ["b", "a"]), "b", ja, jb, ["x"], "b");
  }

  lemma OrderSecondVisitBBundles(ja: Job, jb: Job)
    requires OrderJobs(ja, jb)
    ensures VisitName(State([], ["b", "a"]), "b", [ja, jb], ["x"]).bundles == ["a", "x"]
  {
    OrderAbsorbBA();
    ConsOne("a", "x");
    VisitSecondBundles(State([], ["b", "a"]), "b", ja, jb, ["x"], "b", ["a"], ["x"]);
  }

  /** With `b` visited first, `b` fires, takes itself out and appends `x`. */
  lemma OrderSecondVisitB(ja: Job, jb: Job)
    requires OrderJobs(ja, jb)
    ensures VisitName(State([], ["b", "a"]), "b", [ja, jb], ["x"]) == State(["b"], ["a", "x"])
  {
    OrderSecondVisitBTargets(ja, jb);
    OrderSecondVisitBBundles(ja, jb);
    StateParts(VisitName(State([], ["b", "a"]), "b", [ja, jb], ["x"]), ["b"], ["a", "x"]);
  }

  lemma OrderSecondVisitATargets(ja: Job, jb: Job)
    requires OrderJobs(ja, jb)
    ensures VisitName(State(["b"], ["a", "x"]), "a", [ja, jb], ["x"]).targets == ["b", "a:x"]
  {
    VisitFirstTargets(State(["b"], ["a", "x"]), "a", ja, jb, ["x"], "a:x");
  }

  lemma OrderSecondVisitABundles(ja: Job, jb: Job)
    requires OrderJobs(ja, jb)
    ensures VisitName(State(["b"], ["a", "x"]), "a", [ja, jb], ["x"]).bundles == []
  {
    OrderAbsorbAX();
    VisitFirstBundles(State(["b"], ["a", "x"]), "a", ja, jb, ["x"], "a:x", [], []);
  }

  /** Then `a` fires and absorbs both `x` and itself. */
  lemma OrderSecondVisitA(ja: Job, jb: Job)
    requires OrderJobs(ja, jb)
    ensures VisitName(State(["b"], ["a", "x"]), "a", [ja, jb], ["x"]) == State(["b", "a:x"], [])
  {
    OrderSecondVisitATargets(ja, jb);
    OrderSecondVisitABundles(ja, jb);
    StateParts(VisitName(State(["b"], ["a", "x"]), "a", [ja, jb], ["x"]), ["b", "a:x"], []);
  }

  lemma OrderRuns(ja: Job, jb: Job)
    requires OrderJobs(ja, jb)
    ensures RunVisits(State([], ["a", "b"]), ["x", "a", "b"], [ja, jb], ["x"]) == State(["a:x", "b"], ["x"])
    ensures RunVisits(State([], ["b", "a"]), ["x", "b", "a"], [ja, jb], ["x"]) == State(["b", "a:x"], [])
  {
    OrderVisitX(ja, jb);
    OrderFirstVisitA(ja, jb);
    OrderFirstVisitB(ja, jb);
    OrderSecondVisitB(ja, jb);
    OrderSecondVisitA(ja, jb);
    RunThree(State([], ["a", "b"]), State([], ["a", "b"]), State(["a:x"], ["b"]), State(["a:x", "b"], ["x"]), "x", "a", "b", [ja, jb], ["x"]);
    RunThree(State([], ["b", "a"]), State([], ["b", "a"]), State(["b"], ["a", "x"]), State(["b", "a:x"], []), "x", "b", "a", [ja, jb], ["x"]);
  }

  lemma ConsOne(a: string, b: string)
    ensures [a] + [b] == [a, b]
  {
  }

  lemma ConsPair(a: string, b: string, c: string)
    ensures [a] + [b, c] == [a, b, c]
    ensures [a, b] + [c] == [a, b, c]
  {
  }

  /** The resolver's output, read off a run of the visiting list. */
  lemma AliasedFromRun(bundles: seq<string>, checkJobs: seq<string>, names: seq<string>, jobs: seq<Job>, st: State)
    requires names == checkJobs + bundles
    requires RunVisits(State([], bundles), names, jobs, checkJobs) == st
    ensures AliasedTargets(bundles, checkJobs, jobs) == st.targets + st.bundles
  {
  }

  lemma OrderResolveFor(ja: Job, jb: Job)
    requires OrderJobs(ja, jb)
    ensures AliasedTargets(["a", "b"], ["x"], [ja, jb]) == ["a:x", "b", "x"]
    ensures AliasedTargets(["b", "a"], ["x"], [ja, jb]) == ["b", "a:x"]
  {
    OrderRuns(ja, jb);
    ConsPair("x", "a", "b");
    ConsPair("x", "b", "a");
    ConsPair("a:x", "b", "x");
    AliasedFromRun(["a", "b"], ["x"], ["x", "a", "b"], [ja, jb], State(["a:x", "b"], ["x"]));
    AliasedFromRun(["b", "a"], ["x"], ["x", "b", "a"], [ja, jb], State(["b", "a:x"], []));
    assert ["b", "a:x"] + [] == ["b", "a:x"];
  }

  lemma OrderResolve()
    ensures AliasedTargets(["a", "b"], ["x"], [JobA, JobB]) == ["a:x", "b", "x"]
    ensures AliasedTargets(["b", "a"], ["x"], [JobA, JobB]) == ["b", "a:x"]
  {
    OrderJobsHold();
    OrderResolveFor(JobA, JobB);
  }

  lemma OrderSorted()
    ensures SortedSet(["a:x", "b", "x"]) == ["a:x", "b", "x"]
    ensures SortedSet(["b", "a:x"]) == ["a:x", "b"]
  {
    assert Less("a:x", "b") && Less("b", "x");
    LessTransitive("a:x", "b", "x");
    assert StrictlySorted(["a:x", "b", "x"]);
    assert StrictlySorted(["a:x", "b"]);
    SortedListingUnique(SortedSet(["a:x", "b", "x"]), ["a:x", "b", "x"]);
    SortedListingUnique(SortedSet(["b", "a:x"]), ["a:x", "b"]);
  }

  lemma OrderBundles()
    ensures TestsBundles(map[SmokeKey := Some([Scalar("a")]), GateKey := Some([Scalar("b")]), DevKey := Some([])])
      == Success(["a", "b"])
  {
    var m := map[SmokeKey := Some([Scalar("a")]), GateKey := Some([Scalar("b")]), DevKey := Some([])];
    assert ExtractTargets(Some([Scalar("a")])) == ["a"];
    assert ExtractTargets(Some([Scalar("b")])) == ["b"];
    assert ExtractTargets(Some([])) == [];
    assert SmokeKey != GateKey && SmokeKey != DevKey && GateKey != DevKey;
    assert m[SmokeKey] == Some([Scalar("a")]) && m[GateKey] == Some([Scalar("b")]) && m[DevKey] == Some([]);
    assert ["a"] + ["b"] + [] == ["a", "b"];
  }

  lemma OrderListings()
    ensures SetListing(["a", "b"], ["a", "b"]) && SetListing(["b", "a"], ["a", "b"])
  {
  }

  /** The printed names, read off the resolver's result. */
  lemma OutputFrom(m: TestsYaml, checkJobs: seq<string>, jobs: seq<Job>, order: seq<string>, names: seq<string>, resolved: seq<string>, out: seq<string>)
    requires TestsBundles(m) == Success(names) && SetListing(order, names)
    requires AliasedTargets(order, checkJobs, jobs) == resolved && SortedSet(resolved) == out
    ensures TargetsToRun(m, checkJobs, jobs, order) == Success(out)
  {
  }

  /**
   * Both listings of the manifest targets `a`, `b` are valid outcomes of
   * `list(set(...))`, and they print different names: `a:x b x` against
   * `a:x b`.
   */
  lemma ListingOrderMatters()
    ensures var m := map[SmokeKey := Some([Scalar("a")]), GateKey := Some([Scalar("b")]), DevKey := Some([])];
      && SetListing(["a", "b"], TestsBundles(m).value)
      && SetListing(["b", "a"], TestsBundles(m).value)
      && TargetsToRun(m, ["x"], [JobA, JobB], ["a", "b"]) == Success(["a:x", "b", "x"])
      && TargetsToRun(m, ["x"], [JobA, JobB], ["b", "a"]) == Success(["a:x", "b"])
  {
    var m := map[SmokeKey := Some([Scalar("a")]), GateKey := Some([Scalar("b")]), DevKey := Some([])];
    OrderBundles();
    OrderListings();
    OrderResolve();
    OrderSorted();
    OutputFrom(m, ["x"], [JobA, JobB], ["a", "b"], ["a", "b"], ["a:x", "b", "x"], ["a:x", "b", "x"]);
    OutputFrom(m, ["x"], [JobA, JobB], ["b", "a"], ["a", "b"], ["b", "a:x"], ["a:x", "b"]);
  }
}
