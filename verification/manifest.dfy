/**
 * The test manifest (`tests.yaml`) once parsed: its three bundle lists and
 * the flattening of their entries into target names.
 */
module Manifest {
  import opened Wrappers

  /** The value of a mapping entry: a list of overlays, or a bundle name. */
  datatype Value = Name(name: string) | Overlays(overlays: seq<string>)

  /** A bundle-list entry: a bare target name, or a mapping with its items in insertion order. */
  datatype Entry = Scalar(target: string) | Dict(items: seq<(string, Value)>)

  /** Subscripting the parsed manifest with a key it lacks raises `KeyError`. */
  datatype ManifestError = KeyError(key: string)

  /** The parsed manifest: each key maps to `null` (`None`) or a list of entries. */
  type TestsYaml = map<string, Option<seq<Entry>>>

  const SmokeKey: string := "smoke_bundles"
  const GateKey: string := "gate_bundles"
  const DevKey: string := "dev_bundles"

  /** The target one mapping value stands for: the first key for an overlay list, the value itself otherwise. */
  function ValueTarget(v: Value, firstKey: string): string {
    match v
    case Overlays(_) => firstKey
    case Name(n) => n
  }

  /** One target per mapping value, in item order. */
  function ItemTargets(items: seq<(string, Value)>, firstKey: string): (r: seq<string>)
    ensures |r| == |items|
    ensures forall i :: 0 <= i < |items| ==> r[i] == ValueTarget(items[i].1, firstKey)
  {
    if |items| == 0 then []
    else [ValueTarget(items[0].1, firstKey)] + ItemTargets(items[1..], firstKey)
  }

  /** The number of targets an entry contributes. */
  function EntryCount(e: Entry): nat {
    match e
    case Scalar(_) => 1
    case Dict(items) => |items|
  }

  /** The number of scalar entries plus the number of mapping values. */
  function TotalCount(es: seq<Entry>): nat {
    if |es| == 0 then 0 else EntryCount(es[0]) + TotalCount(es[1..])
  }

  /** What one entry contributes to `extract_targets`. */
  function EntryTargets(e: Entry): (r: seq<string>)
    ensures |r| == EntryCount(e)
    ensures e.Scalar? ==> r == [e.target]
  {
    match e
    case Scalar(t) => [t]
    case Dict(items) => if |items| == 0 then [] else ItemTargets(items, items[0].0)
  }

  /**
   * A mapping contributes one target per value: its first key for each
   * overlay list, the value itself for each bundle name.
   */
  lemma DictEntryTargets(items: seq<(string, Value)>)
    ensures |EntryTargets(Dict(items))| == |items|
    ensures forall i :: 0 <= i < |items| ==>
      EntryTargets(Dict(items))[i] == (if items[i].1.Overlays? then items[0].0 else items[i].1.name)
  {
  }

  /** `extract_targets` over a list of entries. */
  function ExtractAll(es: seq<Entry>): (r: seq<string>)
    ensures |r| == TotalCount(es)
  {
    if |es| == 0 then [] else EntryTargets(es[0]) + ExtractAll(es[1..])
  }

  /** `extract_targets(bundle_list)`: a `None` list is treated as empty. */
  function ExtractTargets(bundleList: Option<seq<Entry>>): (r: seq<string>)
    ensures bundleList.None? ==> r == []
    ensures bundleList.Some? ==> |r| == TotalCount(bundleList.value)
  {
    match bundleList
    case None => []
    case Some(es) => ExtractAll(es)
  }

  /** Extraction distributes over concatenation of entry lists. */
  lemma {:induction false} ExtractAppend(a: seq<Entry>, b: seq<Entry>)
    ensures ExtractAll(a + b) == ExtractAll(a) + ExtractAll(b)
  {
    if |a| > 0 {
      assert (a + b)[1..] == a[1..] + b;
      ExtractAppend(a[1..], b);
    } else {
      assert a + b == b;
    }
  }

  /** The k-th entry's targets sit, unchanged, right after those of the entries before it. */
  lemma {:induction false} ExtractEntrySlice(es: seq<Entry>, k: nat)
    requires k < |es|
    ensures var r := ExtractAll(es);
      var lo := TotalCount(es[..k]);
      lo + EntryCount(es[k]) <= |r| && r[lo..lo + EntryCount(es[k])] == EntryTargets(es[k])
  {
    var pre, post := es[..k], es[k..];
    var a, h, rest := ExtractAll(pre), EntryTargets(es[k]), ExtractAll(post[1..]);
    ExtractSplit(es, k);
    assert post[0] == es[k];
    ExtractCons(post);
    SliceMiddle(ExtractAll(es), a, h, rest, TotalCount(pre), EntryCount(es[k]));
  }

  lemma {:induction false} ExtractSplit(es: seq<Entry>, k: nat)
    requires k <= |es|
    ensures ExtractAll(es) == ExtractAll(es[..k]) + ExtractAll(es[k..])
  {
    assert es == es[..k] + es[k..];
    ExtractAppend(es[..k], es[k..]);
  }

  lemma ExtractCons(es: seq<Entry>)
    requires |es| > 0
    ensures ExtractAll(es) == EntryTargets(es[0]) + ExtractAll(es[1..])
  {
  }

  lemma SliceMiddle(r: seq<string>, a: seq<string>, h: seq<string>, rest: seq<string>, lo: nat, n: nat)
    requires r == a + (h + rest) && lo == |a| && n == |h|
    ensures lo + n <= |r| && r[lo..lo + n] == h
  {
  }

  /** A list of bare names extracts to itself, in order. */
  lemma {:induction false} ExtractScalars(es: seq<Entry>)
    requires forall i :: 0 <= i < |es| ==> es[i].Scalar?
    ensures |ExtractAll(es)| == |es|
    ensures forall i :: 0 <= i < |es| ==> ExtractAll(es)[i] == es[i].target
  {
    if |es| > 0 {
      ExtractScalars(es[1..]);
    }
  }

  /**
   * `get_tests_bundles` after the file is parsed: the smoke, gate and dev
   * targets in that order; the first of the three keys missing raises.
   */
  function TestsBundles(m: TestsYaml): (r: Result<seq<string>, ManifestError>)
    ensures r.Success? <==> SmokeKey in m && GateKey in m && DevKey in m
    ensures SmokeKey !in m ==> r == Failure(KeyError(SmokeKey))
    ensures SmokeKey in m && GateKey !in m ==> r == Failure(KeyError(GateKey))
    ensures SmokeKey in m && GateKey in m && DevKey !in m ==> r == Failure(KeyError(DevKey))
    ensures r.Success? ==>
      r.value == ExtractTargets(m[SmokeKey]) + ExtractTargets(m[GateKey]) + ExtractTargets(m[DevKey])
  {
    if SmokeKey !in m then Failure(KeyError(SmokeKey))
    else if GateKey !in m then Failure(KeyError(GateKey))
    else if DevKey !in m then Failure(KeyError(DevKey))
    else Success(ExtractTargets(m[SmokeKey]) + ExtractTargets(m[GateKey]) + ExtractTargets(m[DevKey]))
  }
}
