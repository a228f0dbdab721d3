# identify_charm_func_tests, modelled in Dafny

The script `identify_charm_func_tests.py` decides which functional-test
targets the OpenStack CI would run for a charm. It works in four steps:

1. It reads the charm's test manifest (`tests.yaml`).
2. It flattens the `smoke_bundles`, `gate_bundles` and `dev_bundles` lists into
   target names.
3. It reconciles those names against the CI job records: a job whose
   `tox_extra_args` carries a `-- <target>` argument turns its name into an
   *aliased* target, absorbs the bundle names that target covers, and re-adds
   those of its dependencies that are project check jobs.
4. It prints the distinct names, sorted.

This project models steps 2 to 4 over an already-parsed manifest, with the two
accessors of the CI configuration (`project_check_jobs`, `jobs`) passed in as
sequences.

Modules, one per file:

- `Wrappers` (`wrappers.dfy`): `Option` and `Result`.
- `PyText` (`pytext.dfy`): the pieces of Python's `str` and `re` the resolver
  relies on.
  - `str.split()` is modelled over exactly the characters `str.isspace()`
    accepts.
  - `str.partition(':')` and `str.replace(' ', '+')`.
  - `re.search(r"-- (.+)", s).group(1)` is modelled with `.` stopping at a
    newline, as Python's default flags have it.
- `Manifest` (`manifest.dfy`): the manifest entries (`Scalar` or `Dict` with
  ordered items), `extract_targets`, and the smoke/gate/dev concatenation of
  `get_tests_bundles`, including the `KeyError` for a missing key.
- `Alias` (`alias.dfy`): `get_aliased_targets`.
  - It is written as a fold that threads the state `(targets, bundles)` over
    the visiting list, one job record at a time (`ApplyJob`, `VisitName`,
    `RunVisits`, `Resolve`).
  - It is also written as the loops themselves (`GetAliasedTargets` and its
    helper methods). Those update `bundles` in place, and are proved equal to
    the fold.
- `Lexical` (`lexical.dfy`): Python's `<` on strings (code point by code point,
  a proper prefix first) and `sorted(set(xs))`.
- `FuncTests` (`functests.dfy`): the `__main__` pipeline from the parsed
  manifest to the sorted output.
- `Scenarios` (`scenarios.dfy`): worked inputs evaluated through the model.

The visiting list is fixed before the resolver's loop: the check jobs, then the
bundle list as passed in. `Resolve` states the consequence. The targets found
are `AliasesFor(checkJobs + bundles, jobs)`, a function of those names and the
job records alone, however the loop edits the working list.

Spaces become `+` at line 69, before `target.split()` runs at line 71. So when
the captured argument has no whitespace other than spaces, the whole target is
one token (`AliasSingleToken`). The name checked for removal is then everything
after the target's first colon. For the capture `default:mytest smoke:other`,
that name is `mytest+smoke:other`. It is neither `mytest` nor `other`, so a
bundle named `other` stays. Reading each space-separated
word as an `<alias>:<target>` pair, as the docstring at lines 41-46 describes
targets, would suggest that `other` is absorbed too. The model follows the code, and `Scenarios.AliasAbsorbsJobNameOnly`
shows the code's behaviour on a short instance of the same shape.

## Model

All source paths are `openstack/tools/func_test_tools/identify_charm_func_tests.py`.

| member | source | states |
|---|---|---|
| Manifest.ItemTargets | openstack/tools/func_test_tools/identify_charm_func_tests.py:25-33 | one target per mapping value, in item order: the first key for an overlay list, the value itself for a bundle name |
| Manifest.EntryTargets | openstack/tools/func_test_tools/identify_charm_func_tests.py:24-35 | an entry contributes as many targets as it has values (one for a scalar), and a scalar passes through unchanged |
| Manifest.DictEntryTargets | openstack/tools/func_test_tools/identify_charm_func_tests.py:24-33 | a mapping entry yields exactly one element per value: the mapping's first key for each list value, the value for each scalar value |
| Manifest.ExtractAll | openstack/tools/func_test_tools/identify_charm_func_tests.py:22-37 | the output length is the number of scalar entries plus the total number of mapping values |
| Manifest.ExtractTargets | openstack/tools/func_test_tools/identify_charm_func_tests.py:17-37 | a `None` list yields nothing; otherwise the length accounting above |
| Manifest.ExtractAppend | openstack/tools/func_test_tools/identify_charm_func_tests.py:22-37 | extraction of a concatenation is the concatenation of the extractions, so the contributions come in entry order |
| Manifest.ExtractEntrySlice | openstack/tools/func_test_tools/identify_charm_func_tests.py:22-37 | the k-th entry's targets appear unchanged and contiguous, right after the targets of the entries before it |
| Manifest.ExtractScalars | openstack/tools/func_test_tools/identify_charm_func_tests.py:34-35 | a list of bare names extracts to exactly those names, in order |
| Manifest.TestsBundles | openstack/tools/func_test_tools/identify_charm_func_tests.py:101-104 | succeeds exactly when all three keys are present; a missing key raises `KeyError` for the first of smoke, gate, dev that is absent; on success the result is the smoke targets, then the gate targets, then the dev targets |
| PyText.ReplaceSpaces | openstack/tools/func_test_tools/identify_charm_func_tests.py:69 | same length; each space becomes `+` and every other character stays where it is |
| PyText.ReplaceSpacesWord | openstack/tools/func_test_tools/identify_charm_func_tests.py:69-71 | when spaces are the only whitespace in the text, the replaced text is a single whitespace-free token |
| PyText.SplitFrom | openstack/tools/func_test_tools/identify_charm_func_tests.py:71 | every token produced is non-empty and whitespace-free, and the tokens concatenate to the input with its whitespace removed |
| PyText.Split | openstack/tools/func_test_tools/identify_charm_func_tests.py:71 | `split()` yields non-empty whitespace-free tokens that together hold every non-whitespace character, in order |
| PyText.SplitJoinSpace | openstack/tools/func_test_tools/identify_charm_func_tests.py:71 | splitting a single-space join of whitespace-free words gives back the words |
| PyText.SplitWord | openstack/tools/func_test_tools/identify_charm_func_tests.py:71 | a non-empty whitespace-free string splits into itself alone |
| PyText.SplitSkipSpace | openstack/tools/func_test_tools/identify_charm_func_tests.py:71 | whitespace of any kind before the first token produces no token: it is skipped |
| PyText.SplitSep | openstack/tools/func_test_tools/identify_charm_func_tests.py:71 | any non-empty run of whitespace ends a token, whatever it holds (space, tab, vertical tab, form feed, carriage return, `\x1c`-`\x1f`, U+0085 and the rest): a word followed by such a run is the first token, and splitting continues after the run |
| PyText.PartitionColon | openstack/tools/func_test_tools/identify_charm_func_tests.py:72 | head, separator and tail concatenate back to the input; the head has no colon; the separator is `:` exactly when the input has a colon; no colon gives `(t, "", "")` |
| PyText.PartitionColonAt | openstack/tools/func_test_tools/identify_charm_func_tests.py:72 | the split happens at the first colon: the tail is everything after it |
| PyText.FindMarker | openstack/tools/func_test_tools/identify_charm_func_tests.py:64-65 | the leftmost position at or after `i` where `-- ` is followed by a non-newline character, or none when there is no such position |
| PyText.LineFrom | openstack/tools/func_test_tools/identify_charm_func_tests.py:64-67 | the greedy `.+` takes a newline-free slice of the input that ends at a newline or at the end |
| PyText.SearchTargetArg | openstack/tools/func_test_tools/identify_charm_func_tests.py:64-67 | the search fails exactly when no position can start a match; otherwise the group is the non-empty, newline-free text after the leftmost `-- `, running to the end of its line |
| Alias.AliasOf | openstack/tools/func_test_tools/identify_charm_func_tests.py:61-69 | a record yields a target exactly when it has `tox_extra_args` and the search succeeds; the target is the captured group with each space turned into `+`, so it is non-empty and has no space or newline |
| Alias.ColonNames | openstack/tools/func_test_tools/identify_charm_func_tests.py:71-72 | one name per token: the part of the token after its first colon |
| Alias.RemoveFirst | openstack/tools/func_test_tools/identify_charm_func_tests.py:73-77 | an absent name leaves the list unchanged; otherwise exactly one occurrence of it is gone and all other counts are unchanged |
| Alias.RemoveFirstAt | openstack/tools/func_test_tools/identify_charm_func_tests.py:73-77 | the occurrence removed is the first one: the elements before and after it stay, in order |
| Alias.RemoveFirstSubseq | openstack/tools/func_test_tools/identify_charm_func_tests.py:73-77 | removal keeps the remaining elements in their original order |
| Alias.RemoveEach | openstack/tools/func_test_tools/identify_charm_func_tests.py:71-74 | removing each token's name in turn takes away one occurrence per name where one is left, and nothing else |
| Alias.RemoveEachSubseq | openstack/tools/func_test_tools/identify_charm_func_tests.py:71-74 | the repeated removals keep the surviving names in their order |
| Alias.Absorb | openstack/tools/func_test_tools/identify_charm_func_tests.py:71-77 | the list after absorption is the old list minus one occurrence of each name the record covers (when present), the rest in their order |
| Alias.RemovalNamesWord | openstack/tools/func_test_tools/identify_charm_func_tests.py:71-77 | a whitespace-free target covers exactly two names: the part after its first colon, and the job's name |
| Alias.AbsorbWord | openstack/tools/func_test_tools/identify_charm_func_tests.py:71-77 | for a whitespace-free target, absorption removes the first occurrence of the after-colon name and then the first occurrence of the job's name |
| Alias.AliasSingleToken | openstack/tools/func_test_tools/identify_charm_func_tests.py:64-77 | when the captured argument has no whitespace but spaces, a firing record covers only the name after its target's first colon and its own name |
| Alias.RemovalNamesSep | openstack/tools/func_test_tools/identify_charm_func_tests.py:69-77 | a target whose first word is followed by whitespace that line 69 leaves alone (a tab, say) covers that word's after-colon name first, then the names the rest of the target covers |
| Alias.DepsToAdd | openstack/tools/func_test_tools/identify_charm_func_tests.py:82-84 | each dependency is re-added as often as it is listed if it is a project check job, and never otherwise, in dependency order |
| Alias.ApplyJob | openstack/tools/func_test_tools/identify_charm_func_tests.py:57-84 | a record that does not fire (other name, no `tox_extra_args`, no match) changes nothing; a firing record appends exactly its target to the targets |
| Alias.ApplyJobBundles | openstack/tools/func_test_tools/identify_charm_func_tests.py:71-84 | a firing record's bundle list is the old list minus the names it covers (kept in order), followed by the check-job dependencies it adds |
| Alias.ApplyJobProvenance | openstack/tools/func_test_tools/identify_charm_func_tests.py:71-84 | a record only ever adds names that are project check jobs |
| Alias.ApplyJobKeeps | openstack/tools/func_test_tools/identify_charm_func_tests.py:71-84 | a record keeps every bundle name it does not cover: a name it does not fire for, or one that is neither a token's after-colon name nor the job's name, stays in the list |
| Alias.AliasesOf | openstack/tools/func_test_tools/identify_charm_func_tests.py:57-70 | every target found for one name is a well-formed alias target, at most one per record |
| Alias.AliasesFor | openstack/tools/func_test_tools/identify_charm_func_tests.py:56-70 | every target found for a visiting list is a well-formed alias target |
| Alias.AliasesOfEmpty | openstack/tools/func_test_tools/identify_charm_func_tests.py:57-66 | no target is found for a name exactly when no record fires for it |
| Alias.AliasesForEmpty | openstack/tools/func_test_tools/identify_charm_func_tests.py:56-66 | no target is found at all exactly when no record fires for any visited name |
| Alias.VisitName | openstack/tools/func_test_tools/identify_charm_func_tests.py:57-84 | the inner loop appends the targets of the records that fire for the name, in record order, whatever it does to the bundle list |
| Alias.VisitNameProvenance | openstack/tools/func_test_tools/identify_charm_func_tests.py:57-84 | the inner loop only adds names that are project check jobs |
| Alias.VisitNameKeeps | openstack/tools/func_test_tools/identify_charm_func_tests.py:57-84 | a bundle name that no record firing for the visited name covers is still in the list after the inner loop |
| Alias.RunVisits | openstack/tools/func_test_tools/identify_charm_func_tests.py:56-84 | the outer loop appends the targets of every visited name, in visiting order; with nothing firing, the state is unchanged |
| Alias.RunVisitsProvenance | openstack/tools/func_test_tools/identify_charm_func_tests.py:56-84 | the outer loop only adds names that are project check jobs |
| Alias.RunVisitsKeeps | openstack/tools/func_test_tools/identify_charm_func_tests.py:56-84 | a bundle name that no firing record of any visited name covers is still in the list after the outer loop |
| Alias.Resolve | openstack/tools/func_test_tools/identify_charm_func_tests.py:52-84 | the targets are determined by the snapshot `check jobs + original bundles` alone; every remaining bundle name came from the input or the check jobs; every input bundle name that no firing record of a visited name covers remains; with nothing firing the state is `([], bundles)` |
| Alias.AliasedTargets | openstack/tools/func_test_tools/identify_charm_func_tests.py:40-86 | the result starts with the targets found for the snapshot; every element is an input bundle, a check job or an alias target; every input bundle name that no firing record covers is in the result; if no record fires, the result is the input bundles unchanged |
| Alias.RemoveTokenNames | openstack/tools/func_test_tools/identify_charm_func_tests.py:71-74 | the token loop with its `in` guard removes one occurrence per token name where one is left |
| Alias.AppendCheckDeps | openstack/tools/func_test_tools/identify_charm_func_tests.py:82-84 | the dependency loop appends the dependencies that are check jobs, in order, after the existing list |
| Alias.VisitJob | openstack/tools/func_test_tools/identify_charm_func_tests.py:58-84 | the inner-loop body, updating both lists in place, does what `ApplyJob` says |
| Alias.GetAliasedTargets | openstack/tools/func_test_tools/identify_charm_func_tests.py:52-86 | the loops, which copy the visiting list and then edit `bundles` in place, return exactly the fold's result |
| Lexical.LessIrreflexive | openstack/tools/func_test_tools/identify_charm_func_tests.py:110 | no string sorts before itself |
| Lexical.LessTransitive | openstack/tools/func_test_tools/identify_charm_func_tests.py:110 | the string order used by `sorted` is transitive |
| Lexical.LessTotal | openstack/tools/func_test_tools/identify_charm_func_tests.py:110 | any two different strings are ordered one way or the other |
| Lexical.Insert | openstack/tools/func_test_tools/identify_charm_func_tests.py:110 | inserting into a strictly ascending list keeps it strictly ascending and adds exactly the new element |
| Lexical.SortedSet | openstack/tools/func_test_tools/identify_charm_func_tests.py:110 | `sorted(set(xs))` is strictly ascending and holds exactly the elements of `xs` |
| Lexical.SortedListingUnique | openstack/tools/func_test_tools/identify_charm_func_tests.py:110 | two strictly ascending lists with the same elements are equal, so the sorted output is determined by its set |
| FuncTests.TargetsToRun | openstack/tools/func_test_tools/identify_charm_func_tests.py:107-110 | fails exactly when the manifest lacks a key, with that error; otherwise the output is strictly ascending, is the set of the resolver's result, and holds only manifest targets, check jobs and alias targets; every manifest target that no firing record covers is printed; with no alias it is the set of manifest targets |
| FuncTests.NoAliasOutput | openstack/tools/func_test_tools/identify_charm_func_tests.py:107-110 | with no record firing, the output is the manifest's targets sorted, whatever order the set listing came in |
| Scenarios.OverlayYieldsKey | openstack/tools/func_test_tools/identify_charm_func_tests.py:24-33 | a mapping with an overlay list yields its key; a mapping with a bundle name yields that name |
| Scenarios.SearchExample | openstack/tools/func_test_tools/identify_charm_func_tests.py:64-67 | the search on `x -- d:m s:o` captures `d:m s:o` |
| Scenarios.RemovalExample | openstack/tools/func_test_tools/identify_charm_func_tests.py:69-77 | the target `d:m+s:o` of job `m` covers the names `m+s:o` and `m` |
| Scenarios.AliasAbsorbsJobNameOnly | openstack/tools/func_test_tools/identify_charm_func_tests.py:64-86 | with bundles `m`, `o` and a job `m` whose argument is `x -- d:m s:o`, the result is `d:m+s:o`, `o`: `o` is not absorbed |
| Scenarios.DependencyJoins | openstack/tools/func_test_tools/identify_charm_func_tests.py:54-86 | a check job `c` with argument `-- d:c` and dependency `e` (also a check job) yields `d:c`, `e`, although the manifest named neither |
| Scenarios.PlainManifest | openstack/tools/func_test_tools/identify_charm_func_tests.py:101-110 | smoke `foo`, gate `bar`, empty dev and no jobs print `bar foo` |
| Scenarios.ListingOrderMatters | openstack/tools/func_test_tools/identify_charm_func_tests.py:52-110 | with manifest targets `a`, `b`, check job `x`, a job `a` running `-- a:x` and a job `b` running `-- b` that depends on `x`, both listings of `set(...)` are possible, and they print different names: `a:x b x` for the listing `a`, `b` and `a:x b` for `b`, `a` |

## Left out

- Choosing and reading the manifest file (lines 93-98) and YAML parsing (line 99): these are I/O and a foreign library. The model starts from the parsed map `TestsYaml`.
- A manifest whose top level is not a mapping: the model starts from the three keyed lists.
- A bundle section that is not a list. A string (`smoke_bundles: foo`) makes line 23 iterate over its characters, and a mapping makes it iterate over its keys. The model has a section as a list of entries, or absent (`None`).
- A list entry that is itself a list (`- [a, b]`). Line 35 appends it as it is, and `set()` at line 109 then raises `TypeError`. A model entry is a string or a mapping.
- Entries or mapping values that are numbers, booleans or nested mappings: the model has string names only.
- Building `OSCIConfig` (line 53): it reads the CI configuration, which is not part of this model. Its `project_check_jobs` and `jobs` are parameters.
- Job records without a `vars` mapping (line 61 raises `KeyError` there): a `Job` always has an optional `tox_extra_args`.
- The `str()` coercion of a non-string `tox_extra_args` (line 65): the argument is a string.
- A `dependencies` key present with a `null` value (line 82 would fail iterating `None`): dependencies are a sequence, and an absent key is the empty one.
- Python's `re` engine beyond the one pattern `-- (.+)`, searched without flags.
- Python strings may hold lone surrogate code points, which Dafny's `char` cannot. The model's strings are sequences of Unicode scalar values.
- The order of `list(set(_bundles))` (line 109): a hash set's iteration order is not specified, so it is the parameter `order`. `FuncTests.TargetsToRun` requires it to be a duplicate-free listing of the manifest targets. The printed names can depend on this order. Take bundles `A` and `B` and a check job `X`. Job `A` has the argument `-- a:X`. Job `B` has some `-- ` argument and depends on `X`. Visiting `B` first appends `X`, and then `A` removes it. Visiting `A` first removes nothing, and then `B` appends `X`. `Scenarios.ListingOrderMatters` states this dependence on a concrete instance.
- Printing and the space join (line 110): the model stops at the sorted sequence.
- `Alias.ApplyJobBundles`: it states the kept part of the bundle list by order (subsequence) and by counts (multiset difference), not as one closed-form sequence. The exact position of each removal is stated per removal by `Alias.RemoveFirstAt`.
