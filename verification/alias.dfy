/**
 * `get_aliased_targets`: reconciles the bundle names against the CI job
 * records. A job whose name is visited and whose `tox_extra_args` carries a
 * `-- <target>` argument contributes that target (spaces turned into `+`),
 * absorbs the bundle names it covers, and re-adds those of its dependencies
 * that are project check jobs.
 *
 * The two accessors of the CI configuration (`project_check_jobs`, `jobs`)
 * are parameters here.
 */
module Alias {
  import opened Wrappers
  import opened PyText

  /** A CI job record as the resolver reads it. */
  datatype Job = Job(name: string, toxExtraArgs: Option<string>, dependencies: seq<string>)

  /** What the loop threads: the alias targets found so far and the working bundle list. */
  datatype State = State(targets: seq<string>, bundles: seq<string>)

  /** An alias target: non-empty, with no space (each became `+`) and no newline (the match stops there). */
  predicate IsTarget(t: string) {
    |t| > 0 && ' ' !in t && '\n' !in t
  }

  /** `a` is `b` with some elements left out, the rest in their order. */
  predicate Subseq(a: seq<string>, b: seq<string>)
    decreases |b|
  {
    |a| == 0 || (|b| > 0 && ((a[0] == b[0] && Subseq(a[1..], b[1..])) || Subseq(a, b[1..])))
  }

  lemma {:induction false} SubseqRefl(a: seq<string>)
    ensures Subseq(a, a)
  {
    if |a| > 0 {
      SubseqRefl(a[1..]);
    }
  }

  lemma {:induction false} SubseqTrans(a: seq<string>, b: seq<string>, c: seq<string>)
    requires Subseq(a, b) && Subseq(b, c)
    ensures Subseq(a, c)
    decreases |c|
  {
    if |a| > 0 {
      if Subseq(b, c[1..]) {
        SubseqTrans(a, b, c[1..]);
      } else if a[0] == b[0] && Subseq(a[1..], b[1..]) {
        SubseqTrans(a[1..], b[1..], c[1..]);
      } else {
        SubseqTrans(a, b[1..], c[1..]);
      }
    }
  }

  /** The alias target a job names: its `-- ` argument with every space turned into `+`. */
  function AliasOf(job: Job): (r: Option<string>)
    ensures r.Some? <==> job.toxExtraArgs.Some? && SearchTargetArg(job.toxExtraArgs.value).Some?
    ensures r.Some? ==> IsTarget(r.value)
    ensures r.Some? ==> var c := SearchTargetArg(job.toxExtraArgs.value).value;
      |r.value| == |c| && forall i :: 0 <= i < |c| ==> r.value[i] == (if c[i] == ' ' then '+' else c[i])
  {
    match job.toxExtraArgs
    case None => None
    case Some(args) =>
      match SearchTargetArg(args)
      case None => None
      case Some(c) =>
        var t := ReplaceSpaces(c);
        assert t[0] == '+' || t[0] == c[0];
        assert '\n' !in t by {
          forall i | 0 <= i < |t| ensures t[i] != '\n' {
            assert c[i] in c;
          }
        }
        Some(t)
  }

  /** The job record acts on the visited name: names agree and the `-- ` search succeeds. */
  predicate Fires(job: Job, jobname: string) {
    job.name == jobname && AliasOf(job).Some?
  }

  /** `_target.partition(':')[2]` for each token. */
  function ColonNames(tokens: seq<string>): (r: seq<string>)
    ensures |r| == |tokens|
    ensures forall i :: 0 <= i < |tokens| ==> tokens[i] == PartitionColon(tokens[i]).0 + PartitionColon(tokens[i]).1 + r[i]
  {
    seq(|tokens|, i requires 0 <= i < |tokens| => PartitionColon(tokens[i]).2)
  }

  /** The names a firing job absorbs, in removal order: the after-colon part of each token of its target, then its own name. */
  function RemovalNames(target: string, jobname: string): seq<string> {
    ColonNames(Split(target)) + [jobname]
  }

  /** `if x in xs: xs.remove(x)`: drops the first occurrence of `x`, if any. */
  function RemoveFirst(xs: seq<string>, x: string): (r: seq<string>)
    ensures x !in xs ==> r == xs
    ensures multiset(r) == multiset(xs) - multiset{x}
  {
    if |xs| == 0 then []
    else if xs[0] == x then
      assert xs == [x] + xs[1..];
      xs[1..]
    else
      assert xs == [xs[0]] + xs[1..];
      [xs[0]] + RemoveFirst(xs[1..], x)
  }

  lemma RemoveFirstKeeps(xs: seq<string>, x: string)
    requires |xs| > 0 && xs[0] != x
    ensures RemoveFirst(xs, x) == [xs[0]] + RemoveFirst(xs[1..], x)
  {
  }

  lemma ConsSplit(xs: seq<string>, i: nat)
    requires 0 < i < |xs|
    ensures [xs[0]] + (xs[1..][..i - 1] + xs[1..][i..]) == xs[..i] + xs[i + 1..]
  {
    var t := xs[1..];
    assert [xs[0]] + t[..i - 1] == xs[..i];
    assert t[i..] == xs[i + 1..];
    AppendAssoc([xs[0]], t[..i - 1], t[i..]);
  }

  /** The occurrence removed is the first: everything before and after it stays put. */
  lemma {:induction false} RemoveFirstAt(xs: seq<string>, x: string, i: nat)
    requires i < |xs| && xs[i] == x && x !in xs[..i]
    ensures RemoveFirst(xs, x) == xs[..i] + xs[i + 1..]
  {
    var t := xs[1..];
    if i > 0 {
      assert xs[0] != x by {
        assert xs[0] in xs[..i];
      }
      assert x !in t[..i - 1] by {
        assert t[..i - 1] == xs[..i][1..];
      }
      RemoveFirstAt(t, x, i - 1);
      RemoveFirstKeeps(xs, x);
      ConsSplit(xs, i);
    } else {
      assert xs[..0] + xs[1..] == t;
    }
  }

  /** Removal keeps the other elements in their order. */
  lemma {:induction false} RemoveFirstSubseq(xs: seq<string>, x: string)
    ensures Subseq(RemoveFirst(xs, x), xs)
  {
    if |xs| > 0 {
      if xs[0] == x {
        SubseqRefl(xs[1..]);
      } else {
        RemoveFirstSubseq(xs[1..], x);
      }
    }
  }

  lemma MinusMinus(a: multiset<string>, b: multiset<string>, c: multiset<string>)
    ensures a - b - c == a - (b + c)
  {
    assert forall y :: (a - b - c)[y] == (a - (b + c))[y];
  }

  /** Removes the first occurrence of each name in turn, skipping the absent ones. */
  function RemoveEach(xs: seq<string>, names: seq<string>): (r: seq<string>)
    decreases |names|
    ensures multiset(r) == multiset(xs) - multiset(names)
  {
    if |names| == 0 then xs
    else
      assert names == [names[0]] + names[1..];
      MinusMinus(multiset(xs), multiset{names[0]}, multiset(names[1..]));
      RemoveEach(RemoveFirst(xs, names[0]), names[1..])
  }

  lemma {:induction false} RemoveEachSubseq(xs: seq<string>, names: seq<string>)
    ensures Subseq(RemoveEach(xs, names), xs)
    decreases |names|
  {
    if |names| == 0 {
      SubseqRefl(xs);
    } else {
      var once := RemoveFirst(xs, names[0]);
      RemoveEachSubseq(once, names[1..]);
      RemoveFirstSubseq(xs, names[0]);
      SubseqTrans(RemoveEach(xs, names), once, xs);
    }
  }

  /** The bundle list after a firing job absorbed the names its target and its name cover. */
  function Absorb(bundles: seq<string>, target: string, jobname: string): (r: seq<string>)
    ensures multiset(r) == multiset(bundles) - multiset(RemovalNames(target, jobname))
    ensures Subseq(r, bundles)
  {
    var names := ColonNames(Split(target));
    var r := RemoveFirst(RemoveEach(bundles, names), jobname);
    RemoveEachSubseq(bundles, names);
    RemoveFirstSubseq(RemoveEach(bundles, names), jobname);
    MinusMinus(multiset(bundles), multiset(names), multiset{jobname});
    SubseqTrans(r, RemoveEach(bundles, names), bundles);
    r
  }

  /** A target without whitespace is a single token, so it covers one name besides the job's own. */
  lemma {:induction false} RemovalNamesWord(target: string, jobname: string)
    requires IsWord(target)
    ensures RemovalNames(target, jobname) == [PartitionColon(target).2, jobname]
  {
    SplitWord(target);
    assert ColonNames([target]) == [PartitionColon(target).2];
  }

  /**
   * A target whose first word is followed by whitespace other than a space
   * (a tab, say, which line 69 leaves alone) splits there: the first word's
   * after-colon name is the first name covered.
   */
  lemma {:induction false} RemovalNamesSep(w: string, sep: string, rest: string, jobname: string)
    requires IsWord(w)
    requires |sep| > 0 && forall i :: 0 <= i < |sep| ==> IsSpace(sep[i])
    ensures RemovalNames(w + sep + rest, jobname) == [PartitionColon(w).2] + RemovalNames(rest, jobname)
  {
    SplitSep(w, sep, rest);
    var tokens := Split(rest);
    assert ColonNames([w] + tokens) == [PartitionColon(w).2] + ColonNames(tokens);
  }

  /**
   * A target without whitespace is a single token: the record absorbs the
   * name after its first colon, then its own name.
   */
  lemma {:induction false} AbsorbWord(bundles: seq<string>, target: string, jobname: string)
    requires IsWord(target)
    ensures Absorb(bundles, target, jobname) == RemoveFirst(RemoveFirst(bundles, PartitionColon(target).2), jobname)
  {
    var name := PartitionColon(target).2;
    SplitWord(target);
    assert ColonNames([target]) == [name];
    assert RemoveEach(bundles, [name]) == RemoveEach(RemoveFirst(bundles, name), []);
  }

  /**
   * When the captured argument holds no whitespace but spaces, the alias
   * target is one token: a firing record absorbs the name after the
   * target's first colon, then its own name, and nothing else.
   */
  lemma {:induction false} AliasSingleToken(job: Job, jobname: string)
    requires Fires(job, jobname)
    requires var c := SearchTargetArg(job.toxExtraArgs.value).value;
      forall i :: 0 <= i < |c| ==> (IsSpace(c[i]) ==> c[i] == ' ')
    ensures RemovalNames(AliasOf(job).value, jobname) == [PartitionColon(AliasOf(job).value).2, jobname]
  {
    ReplaceSpacesWord(SearchTargetArg(job.toxExtraArgs.value).value);
    RemovalNamesWord(AliasOf(job).value, jobname);
  }

  /** The dependencies appended to the bundle list: those that are project check jobs, in order. */
  function DepsToAdd(deps: seq<string>, checkJobs: seq<string>): (r: seq<string>)
    ensures forall y :: multiset(r)[y] == (if y in checkJobs then multiset(deps)[y] else 0)
    ensures Subseq(r, deps)
  {
    if |deps| == 0 then []
    else
      var rest := DepsToAdd(deps[1..], checkJobs);
      assert deps == [deps[0]] + deps[1..];
      if deps[0] in checkJobs then
        [deps[0]] + rest
      else
        rest
  }

  lemma AppendAssoc(a: seq<string>, b: seq<string>, c: seq<string>)
    ensures a + (b + c) == (a + b) + c
  {
  }

  lemma AppendEmpty(b: seq<string>, c: seq<string>)
    ensures b + c == [] ==> b == [] && c == []
  {
  }

  /** The target a record adds for a visited name: one if it fires, none otherwise. */
  function Fired(job: Job, jobname: string): seq<string> {
    if Fires(job, jobname) then [AliasOf(job).value] else []
  }

  /**
   * One job record examined for one visited name. Nothing changes unless the
   * record fires; then its target is appended to the targets.
   */
  function ApplyJob(st: State, jobname: string, job: Job, checkJobs: seq<string>): (r: State)
    ensures !Fires(job, jobname) ==> r == st
    ensures r.targets == st.targets + Fired(job, jobname)
  {
    if !Fires(job, jobname) then st
    else
      var target := AliasOf(job).value;
      State(st.targets + [target], Absorb(st.bundles, target, jobname) + DepsToAdd(job.dependencies, checkJobs))
  }

  /**
   * What a firing record does to the bundle list: the names it covers are
   * removed (first occurrences, when present), the rest keep their order,
   * and its check-job dependencies are appended at the end.
   */
  lemma ApplyJobBundles(st: State, jobname: string, job: Job, checkJobs: seq<string>)
    requires Fires(job, jobname)
    ensures var r := ApplyJob(st, jobname, job, checkJobs);
      var added := DepsToAdd(job.dependencies, checkJobs);
      var kept := |r.bundles| - |added|;
      && 0 <= kept
      && r.bundles[kept..] == added
      && Subseq(r.bundles[..kept], st.bundles)
      && multiset(r.bundles[..kept]) == multiset(st.bundles) - multiset(RemovalNames(AliasOf(job).value, jobname))
  {
    var r := ApplyJob(st, jobname, job, checkJobs);
    var kept := Absorb(st.bundles, AliasOf(job).value, jobname);
    var added := DepsToAdd(job.dependencies, checkJobs);
    assert r.bundles == kept + added;
    assert r.bundles[..|kept|] == kept;
    assert r.bundles[|kept|..] == added;
  }

  /** The alias targets of the records named `jobname`, in record order. */
  function AliasesOf(jobname: string, jobs: seq<Job>): (r: seq<string>)
    ensures forall i :: 0 <= i < |r| ==> IsTarget(r[i])
    ensures |r| <= |jobs|
  {
    if |jobs| == 0 then []
    else Fired(jobs[0], jobname) + AliasesOf(jobname, jobs[1..])
  }

  /** The alias targets of every visited name, in visiting order. */
  function AliasesFor(names: seq<string>, jobs: seq<Job>): (r: seq<string>)
    ensures forall i :: 0 <= i < |r| ==> IsTarget(r[i])
  {
    if |names| == 0 then [] else AliasesOf(names[0], jobs) + AliasesFor(names[1..], jobs)
  }

  /** No record fires for any of the names. */
  ghost predicate NoneFires(names: seq<string>, jobs: seq<Job>) {
    forall i, k :: 0 <= i < |names| && 0 <= k < |jobs| ==> !Fires(jobs[k], names[i])
  }

  lemma {:induction false} AliasesOfEmpty(jobname: string, jobs: seq<Job>)
    ensures AliasesOf(jobname, jobs) == [] <==> forall k :: 0 <= k < |jobs| ==> !Fires(jobs[k], jobname)
  {
    if |jobs| > 0 {
      AliasesOfEmpty(jobname, jobs[1..]);
      assert forall k :: 1 <= k < |jobs| ==> jobs[k] == jobs[1..][k - 1];
    }
  }

  /** The resolver finds no alias target exactly when no record fires for a visited name. */
  lemma {:induction false} AliasesForEmpty(names: seq<string>, jobs: seq<Job>)
    ensures AliasesFor(names, jobs) == [] <==> NoneFires(names, jobs)
  {
    if |names| > 0 {
      AliasesOfEmpty(names[0], jobs);
      AliasesForEmpty(names[1..], jobs);
      assert forall i :: 1 <= i < |names| ==> names[i] == names[1..][i - 1];
    }
  }

  /** All records examined, in order, for one visited name (the inner `for job in osci.jobs`). */
  function VisitName(st: State, jobname: string, jobs: seq<Job>, checkJobs: seq<string>): (r: State)
    decreases |jobs|
    ensures r.targets == st.targets + AliasesOf(jobname, jobs)
    ensures AliasesOf(jobname, jobs) == [] ==> r == st
  {
    if |jobs| == 0 then st
    else
      AppendAssoc(st.targets, Fired(jobs[0], jobname), AliasesOf(jobname, jobs[1..]));
      AppendEmpty(Fired(jobs[0], jobname), AliasesOf(jobname, jobs[1..]));
      VisitName(ApplyJob(st, jobname, jobs[0], checkJobs), jobname, jobs[1..], checkJobs)
  }

  /** One step of the record fold, at position `k` of the records (or their end). */
  lemma VisitNameStep(st: State, jobname: string, jobs: seq<Job>, k: nat, checkJobs: seq<string>)
    requires k <= |jobs|
    ensures k < |jobs| ==> VisitName(st, jobname, jobs[k..], checkJobs) == VisitName(ApplyJob(st, jobname, jobs[k], checkJobs), jobname, jobs[k + 1..], checkJobs)
    ensures k == |jobs| ==> VisitName(st, jobname, jobs[k..], checkJobs) == st
  {
    if k < |jobs| {
      assert jobs[k..][0] == jobs[k] && jobs[k..][1..] == jobs[k + 1..];
    }
  }

  /** A firing record only ever adds names that are project check jobs. */
  lemma ApplyJobProvenance(st: State, jobname: string, job: Job, checkJobs: seq<string>)
    ensures forall x :: x in ApplyJob(st, jobname, job, checkJobs).bundles ==> x in st.bundles || x in checkJobs
  {
    if Fires(job, jobname) {
      ApplyJobBundles(st, jobname, job, checkJobs);
      var r := ApplyJob(st, jobname, job, checkJobs);
      var added := DepsToAdd(job.dependencies, checkJobs);
      var kept := |r.bundles| - |added|;
      assert r.bundles == r.bundles[..kept] + added;
      forall x | x in r.bundles
        ensures x in st.bundles || x in checkJobs
      {
        if x in added {
          assert multiset(added)[x] > 0;
        } else {
          assert x in r.bundles[..kept];
          assert multiset(r.bundles[..kept])[x] > 0;
        }
      }
    }
  }

  lemma {:induction false} VisitNameProvenance(st: State, jobname: string, jobs: seq<Job>, checkJobs: seq<string>)
    ensures forall x :: x in VisitName(st, jobname, jobs, checkJobs).bundles ==> x in st.bundles || x in checkJobs
    decreases |jobs|
  {
    if |jobs| > 0 {
      ApplyJobProvenance(st, jobname, jobs[0], checkJobs);
      VisitNameProvenance(ApplyJob(st, jobname, jobs[0], checkJobs), jobname, jobs[1..], checkJobs);
    }
  }

  /** Some record that fires for `jobname` covers the name `y`. */
  ghost predicate Covers(jobname: string, jobs: seq<Job>, y: string) {
    exists k :: 0 <= k < |jobs| && Fires(jobs[k], jobname) && y in RemovalNames(AliasOf(jobs[k]).value, jobname)
  }

  /** No record that fires for any of the names covers `y`. */
  ghost predicate Uncovered(names: seq<string>, jobs: seq<Job>, y: string) {
    forall i :: 0 <= i < |names| ==> !Covers(names[i], jobs, y)
  }

  /** A name the record does not cover stays in the bundle list. */
  lemma ApplyJobKeeps(st: State, jobname: string, job: Job, checkJobs: seq<string>, y: string)
    requires y in st.bundles
    requires Fires(job, jobname) ==> y !in RemovalNames(AliasOf(job).value, jobname)
    ensures y in ApplyJob(st, jobname, job, checkJobs).bundles
  {
    if Fires(job, jobname) {
      ApplyJobBundles(st, jobname, job, checkJobs);
      var r := ApplyJob(st, jobname, job, checkJobs);
      var kept := |r.bundles| - |DepsToAdd(job.dependencies, checkJobs)|;
      assert multiset(st.bundles)[y] > 0;
      assert multiset(RemovalNames(AliasOf(job).value, jobname))[y] == 0;
      assert y in r.bundles[..kept] by {
        assert multiset(r.bundles[..kept])[y] > 0;
      }
      assert r.bundles == r.bundles[..kept] + r.bundles[kept..];
    }
  }

  lemma {:induction false} VisitNameKeeps(st: State, jobname: string, jobs: seq<Job>, checkJobs: seq<string>, y: string)
    requires y in st.bundles && !Covers(jobname, jobs, y)
    ensures y in VisitName(st, jobname, jobs, checkJobs).bundles
    decreases |jobs|
  {
    if |jobs| > 0 {
      ApplyJobKeeps(st, jobname, jobs[0], checkJobs, y);
      assert !Covers(jobname, jobs[1..], y) by {
        assert forall k :: 0 <= k < |jobs| - 1 ==> jobs[1..][k] == jobs[k + 1];
      }
      VisitNameKeeps(ApplyJob(st, jobname, jobs[0], checkJobs), jobname, jobs[1..], checkJobs, y);
    }
  }

  /** The outer loop: every name of the visiting list in turn. */
  function RunVisits(st: State, names: seq<string>, jobs: seq<Job>, checkJobs: seq<string>): (r: State)
    decreases |names|
    ensures r.targets == st.targets + AliasesFor(names, jobs)
    ensures AliasesFor(names, jobs) == [] ==> r == st
  {
    if |names| == 0 then st
    else
      AppendAssoc(st.targets, AliasesOf(names[0], jobs), AliasesFor(names[1..], jobs));
      AppendEmpty(AliasesOf(names[0], jobs), AliasesFor(names[1..], jobs));
      RunVisits(VisitName(st, names[0], jobs, checkJobs), names[1..], jobs, checkJobs)
  }

  /** One step of the visiting fold, at position `i` of the visiting list (or its end). */
  lemma RunVisitsStep(st: State, names: seq<string>, i: nat, jobs: seq<Job>, checkJobs: seq<string>)
    requires i <= |names|
    ensures i < |names| ==> RunVisits(st, names[i..], jobs, checkJobs) == RunVisits(VisitName(st, names[i], jobs, checkJobs), names[i + 1..], jobs, checkJobs)
    ensures i == |names| ==> RunVisits(st, names[i..], jobs, checkJobs) == st
  {
    if i < |names| {
      assert names[i..][0] == names[i] && names[i..][1..] == names[i + 1..];
    }
  }

  lemma {:induction false} RunVisitsProvenance(st: State, names: seq<string>, jobs: seq<Job>, checkJobs: seq<string>)
    ensures forall x :: x in RunVisits(st, names, jobs, checkJobs).bundles ==> x in st.bundles || x in checkJobs
    decreases |names|
  {
    if |names| > 0 {
      VisitNameProvenance(st, names[0], jobs, checkJobs);
      RunVisitsProvenance(VisitName(st, names[0], jobs, checkJobs), names[1..], jobs, checkJobs);
    }
  }

  /** A name no firing record of any visited name covers survives the outer loop. */
  lemma {:induction false} RunVisitsKeeps(st: State, names: seq<string>, jobs: seq<Job>, checkJobs: seq<string>, y: string)
    requires y in st.bundles && Uncovered(names, jobs, y)
    ensures y in RunVisits(st, names, jobs, checkJobs).bundles
    decreases |names|
  {
    if |names| > 0 {
      VisitNameKeeps(st, names[0], jobs, checkJobs, y);
      assert Uncovered(names[1..], jobs, y) by {
        forall i | 0 <= i < |names[1..]| ensures !Covers(names[1..][i], jobs, y) {
          assert names[1..][i] == names[i + 1];
        }
      }
      RunVisitsKeeps(VisitName(st, names[0], jobs, checkJobs), names[1..], jobs, checkJobs, y);
    }
  }

  /**
   * The resolver's final state. The visiting list is fixed before the loop
   * (check jobs, then the bundles as passed in), so the targets found depend
   * on those names alone, whatever the loop does to the working list.
   */
  function Resolve(bundles: seq<string>, checkJobs: seq<string>, jobs: seq<Job>): (r: State)
    ensures r.targets == AliasesFor(checkJobs + bundles, jobs)
    ensures forall i :: 0 <= i < |r.targets| ==> IsTarget(r.targets[i])
    ensures forall x :: x in r.bundles ==> x in bundles || x in checkJobs
    ensures forall y :: y in bundles && Uncovered(checkJobs + bundles, jobs, y) ==> y in r.bundles
    ensures NoneFires(checkJobs + bundles, jobs) ==> r == State([], bundles)
  {
    AliasesForEmpty(checkJobs + bundles, jobs);
    RunVisitsProvenance(State([], bundles), checkJobs + bundles, jobs, checkJobs);
    assert forall y :: y in bundles && Uncovered(checkJobs + bundles, jobs, y) ==>
      y in RunVisits(State([], bundles), checkJobs + bundles, jobs, checkJobs).bundles by {
      forall y | y in bundles && Uncovered(checkJobs + bundles, jobs, y)
        ensures y in RunVisits(State([], bundles), checkJobs + bundles, jobs, checkJobs).bundles
      {
        RunVisitsKeeps(State([], bundles), checkJobs + bundles, jobs, checkJobs, y);
      }
    }
    RunVisits(State([], bundles), checkJobs + bundles, jobs, checkJobs)
  }

  /** `get_aliased_targets(bundles)`: the alias targets followed by what is left of the bundle list. */
  function AliasedTargets(bundles: seq<string>, checkJobs: seq<string>, jobs: seq<Job>): (r: seq<string>)
    ensures var found := AliasesFor(checkJobs + bundles, jobs);
      |found| <= |r| && r[..|found|] == found
    ensures forall x :: x in r ==> x in bundles || x in checkJobs || IsTarget(x)
    ensures forall y :: y in bundles && Uncovered(checkJobs + bundles, jobs, y) ==> y in r
    ensures NoneFires(checkJobs + bundles, jobs) ==> r == bundles
  {
    var st := Resolve(bundles, checkJobs, jobs);
    assert (st.targets + st.bundles)[..|st.targets|] == st.targets;
    st.targets + st.bundles
  }

  /** The `for _target in target.split()` loop: each token's after-colon name removed once, if present. */
  method RemoveTokenNames(bundlesIn: seq<string>, tokens: seq<string>) returns (bundles: seq<string>)
    ensures bundles == RemoveEach(bundlesIn, ColonNames(tokens))
    ensures multiset(bundles) == multiset(bundlesIn) - multiset(ColonNames(tokens))
  {
    var names := ColonNames(tokens);
    bundles := bundlesIn;
    var t := 0;
    while t < |tokens|
      invariant 0 <= t <= |tokens|
      invariant RemoveEach(bundles, names[t..]) == RemoveEach(bundlesIn, names)
    {
      var name := PartitionColon(tokens[t]).2;
      assert names[t..][0] == name && names[t..][1..] == names[t + 1..];
      if name in bundles {
        bundles := RemoveFirst(bundles, name);
      }
      t := t + 1;
    }
  }

  /** The dependency loop: each dependency that is a project check job is appended, in order. */
  method AppendCheckDeps(bundlesIn: seq<string>, deps: seq<string>, checkJobs: seq<string>) returns (bundles: seq<string>)
    ensures bundles == bundlesIn + DepsToAdd(deps, checkJobs)
  {
    bundles := bundlesIn;
    var d := 0;
    while d < |deps|
      invariant 0 <= d <= |deps|
      invariant bundles + DepsToAdd(deps[d..], checkJobs) == bundlesIn + DepsToAdd(deps, checkJobs)
    {
      var name := deps[d];
      assert deps[d..][0] == name && deps[d..][1..] == deps[d + 1..];
      if name in checkJobs {
        AppendAssoc(bundles, [name], DepsToAdd(deps[d + 1..], checkJobs));
        bundles := bundles + [name];
      }
      d := d + 1;
    }
    assert bundles + DepsToAdd(deps[d..], checkJobs) == bundles;
  }

  /** The body of the inner loop for one job record, updating the two lists in place. */
  method VisitJob(targetsIn: seq<string>, bundlesIn: seq<string>, jobname: string, job: Job, checkJobs: seq<string>)
    returns (targets: seq<string>, bundles: seq<string>)
    ensures State(targets, bundles) == ApplyJob(State(targetsIn, bundlesIn), jobname, job, checkJobs)
  {
    targets, bundles := targetsIn, bundlesIn;
    if job.name != jobname {
      return;
    }
    if job.toxExtraArgs.None? {
      return;
    }
    var ret := SearchTargetArg(job.toxExtraArgs.value);
    if ret.Some? {
      var target := ReplaceSpaces(ret.value);
      targets := targets + [target];
      bundles := RemoveTokenNames(bundles, Split(target));
      if jobname in bundles {
        bundles := RemoveFirst(bundles, jobname);
      }
      bundles := AppendCheckDeps(bundles, job.dependencies, checkJobs);
    }
  }

  /**
   * `get_aliased_targets` as the loops run it: the visiting list is copied
   * before the loop while `bundles` is updated in place, and the result
   * agrees with the fold above.
   */
  method GetAliasedTargets(bundlesIn: seq<string>, checkJobs: seq<string>, jobs: seq<Job>) returns (result: seq<string>)
    ensures result == AliasedTargets(bundlesIn, checkJobs, jobs)
  {
    var targets: seq<string> := [];
    var bundles := bundlesIn;
    var visit := checkJobs + bundles;
    ghost var goal := Resolve(bundlesIn, checkJobs, jobs);
    var i := 0;
    while i < |visit|
      invariant 0 <= i <= |visit|
      invariant RunVisits(State(targets, bundles), visit[i..], jobs, checkJobs) == goal
    {
      var jobname := visit[i];
      RunVisitsStep(State(targets, bundles), visit, i, jobs, checkJobs);
      var k := 0;
      while k < |jobs|
        invariant 0 <= k <= |jobs|
        invariant RunVisits(VisitName(State(targets, bundles), jobname, jobs[k..], checkJobs), visit[i + 1..], jobs, checkJobs) == goal
      {
        VisitNameStep(State(targets, bundles), jobname, jobs, k, checkJobs);
        targets, bundles := VisitJob(targets, bundles, jobname, jobs[k], checkJobs);
        k := k + 1;
      }
      VisitNameStep(State(targets, bundles), jobname, jobs, k, checkJobs);
      i := i + 1;
    }
    RunVisitsStep(State(targets, bundles), visit, i, jobs, checkJobs);
    result := targets + bundles;
  }
}
