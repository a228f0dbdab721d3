/**
 * The script's entry point once the manifest is parsed: the bundle names
 * are de-duplicated into a list, resolved against the CI jobs, and the
 * result printed de-duplicated and sorted.
 */
module FuncTests {
  import opened Wrappers
  import opened Lexical
  import opened Manifest
  import opened Alias

  /**
   * `list(set(xs))`: a duplicate-free listing of the elements of `xs`. Its
   * order is whatever the hash set yields, so it is a parameter.
   */
  ghost predicate SetListing(order: seq<string>, xs: seq<string>) {
    Distinct(order) && forall y :: y in order <==> y in xs
  }

  /**
   * `sorted(set(get_aliased_targets(list(set(get_tests_bundles())))))`, the
   * names printed; a missing manifest key is the `KeyError` raised.
   */
  function TargetsToRun(m: TestsYaml, checkJobs: seq<string>, jobs: seq<Job>, order: seq<string>)
    : (r: Result<seq<string>, ManifestError>)
    requires TestsBundles(m).Success? ==> SetListing(order, TestsBundles(m).value)
    ensures r.Failure? <==> TestsBundles(m).Failure?
    ensures r.Failure? ==> r.error == TestsBundles(m).error
    ensures r.Success? ==> StrictlySorted(r.value)
    ensures r.Success? ==> forall y :: y in r.value <==> y in AliasedTargets(order, checkJobs, jobs)
    ensures r.Success? ==> forall y :: y in r.value ==> y in TestsBundles(m).value || y in checkJobs || IsTarget(y)
    ensures r.Success? ==> forall y :: y in TestsBundles(m).value && Uncovered(checkJobs + order, jobs, y) ==> y in r.value
    ensures r.Success? && NoneFires(checkJobs + order, jobs) ==>
      forall y :: y in r.value <==> y in TestsBundles(m).value
  {
    match TestsBundles(m)
    case Failure(e) => Failure(e)
    case Success(names) => Success(SortedSet(AliasedTargets(order, checkJobs, jobs)))
  }

  /**
   * When no job record fires, the printed names are the manifest's targets
   * sorted, whichever order the set listing came in.
   */
  lemma NoAliasOutput(m: TestsYaml, checkJobs: seq<string>, jobs: seq<Job>, order: seq<string>)
    requires TestsBundles(m).Success? && SetListing(order, TestsBundles(m).value)
    requires NoneFires(checkJobs + order, jobs)
    ensures TargetsToRun(m, checkJobs, jobs, order) == Success(SortedSet(TestsBundles(m).value))
  {
    var r := TargetsToRun(m, checkJobs, jobs, order).value;
    SortedListingUnique(r, SortedSet(TestsBundles(m).value));
  }
}
