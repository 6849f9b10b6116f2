# Download Artifact action checks, modelled in Dafny

The repository's test suite checks one composite GitHub Action: the
"Download Artifact" action. It finds the action's `action.yml` in the
checkout, then runs five tests. Two tests scan the raw text for required
literals. Three tests load the YAML and assert the shape of the document:
the top-level keys, the `inputs` schema, and the download step. If no
file is found, every test is skipped. If PyYAML is missing, the three
structured tests are skipped.

This project models that logic as pure functions over immutable data.

- `Wrappers` (`wrappers.dfy`): `Option` and `Result`.
- `PyStr` (`pystr.dfy`): the Python `str` operations the suite uses.
  These are `pat in text` (a first-occurrence search proved equal to
  "some index where `pat` occurs"), `startswith`, `strip()`, and Python's
  Unicode whitespace class.
- `PyValue` (`pyvalue.dfy`): the loaded YAML document as a typed tree,
  `Str | Bool | Int | Null | Map | List`. Booleans and strings stay
  distinct. The module also gives the Python operations the tests apply:
  `d[k]`, `d.get(k, default)`, `k in v`, `for x in v`, and truthiness.
  Each returns the exception Python would raise (`TypeError`, `KeyError`,
  `AttributeError`) when the value has the wrong shape. A mapping is its
  entry sequence in document order, and a repeated key resolves to its
  last entry, as when PyYAML builds the dict.
- `Locator` (`locator.dfy`): the candidate filter and the ranking.
  - The regular expression `^\s*using:\s*composite\b` under
    `re.MULTILINE` is a deterministic matcher. It is proved equal to the
    pattern's meaning: some line start, a whitespace run, `using:`, a
    second whitespace run, `composite`, then a word boundary.
  - The ranking picks the first candidate with the least key
    `(0 if ".github/actions" in path else 1, len(path))`. Python's sort
    is stable, so this is what `candidates.sort(...)[0]` returns.
- `Steps` (`steps.dfy`): `_find_step_by_uses`, a first-match search.
- `Validators` (`validators.dfy`): the assertion logic of the five tests,
  with the assertions in source order.
  - The outcome is `Pass | Fail(reason) | Skip`.
  - The reason names the failing assertion, or the exception raised first.
  - Each structured check has a declarative partner: `TopLevelOk`,
    `InputsOk` or `StepOk`. A lemma proves the check passes exactly on
    the documents its partner accepts.
- `Suite` (`suite.dfy`): the five tests from the globbed files to their
  outcome.
  - The YAML loader is a parameter: a function from text to document,
    where `None` stands for a parse error. Whether PyYAML is available
    is a flag.
  - A worked example document passes all three structured tests.
  - Two variants of it fail: one with a string `"false"` default, and one
    pinned to `v4.0.0`.

Some behaviour of the code is easy to misread, and the model keeps it
exactly.
- The `\s*` after `using:` may be empty and may span line breaks, so
  `using:composite` and `using:` followed by `composite` on the next line
  both make a file a candidate.
- An absent `required` flag on `force-use-github` is accepted. A present
  one must be the boolean `false`.
- The structured step test does not look for `== 'true'` in the step's
  `if`. Only the raw-text test does.
- The suite has five tests.

## Model

| member | source | states |
|---|---|---|
| PyStr.FindFrom | tests/test_github_actions_and_workflows.py:34 | the search returns the first index at or after `from` where the literal occurs; `None` means it occurs nowhere from there on |
| PyStr.In | tests/test_github_actions_and_workflows.py:67-69 | Python's `pat in text` holds exactly when `pat` occurs at some index of `text` |
| PyStr.StripNonEmptyIff | tests/test_github_actions_and_workflows.py:95 | `description.strip()` is truthy exactly when the description has a non-whitespace character |
| PyValue.Lookup | tests/test_github_actions_and_workflows.py:94-100 | a dict lookup finds a value iff some entry has the key, and it returns the value of the last such entry |
| PyValue.Subscript | tests/test_github_actions_and_workflows.py:135 | `v[k]` succeeds exactly on a mapping holding `k`; it raises KeyError on a mapping without `k` and TypeError on anything else |
| PyValue.Get | tests/test_github_actions_and_workflows.py:114 | `v.get(k, d)` raises AttributeError on a non-mapping; on a mapping it yields the stored value, or `d` when `k` is absent |
| PyValue.Member | tests/test_github_actions_and_workflows.py:92 | `k in v` is key membership for a mapping, substring search for a string, and element equality for a list; it raises TypeError on None, booleans and integers |
| PyValue.Iterate | tests/test_github_actions_and_workflows.py:54 | `for x in v` visits a list's items, and only strings for a mapping or a string; a scalar raises TypeError |
| Locator.MatchesFrom | tests/test_github_actions_and_workflows.py:34 | the greedy matcher at one position accepts exactly when the pattern `^\s*using:\s*composite\b` matches there |
| Locator.FirstMatchFrom | tests/test_github_actions_and_workflows.py:34 | the scan returns a position at or after `p` where the pattern matches and before which, from `p`, none does; or it reports that none exists |
| Locator.UsingComposite | tests/test_github_actions_and_workflows.py:34 | `re.search(..., flags=re.M)` succeeds exactly when the pattern matches at some position |
| Locator.UsingLineFound | tests/test_github_actions_and_workflows.py:34 | an indented `using: composite` line at a line start, followed by a non-word character or the end, is found |
| Locator.IsCandidate | tests/test_github_actions_and_workflows.py:30-35 | a file is a candidate iff it was readable, contains `name: Download Artifact` and matches the composite pattern |
| Locator.Candidates | tests/test_github_actions_and_workflows.py:26-35 | the candidate list holds exactly the candidate files among those globbed; unreadable files are dropped and do not end the search |
| Locator.CandidatesAppend | tests/test_github_actions_and_workflows.py:27-35 | the candidate list keeps glob order: filtering a concatenation is the concatenation of the filtered parts |
| Locator.Flag | tests/test_github_actions_and_workflows.py:39 | the first sort-key component is 0 exactly when the path contains `.github/actions`, and 1 otherwise |
| Locator.BestIndex | tests/test_github_actions_and_workflows.py:39-40 | the chosen candidate has a key no other candidate's key is below, and every earlier candidate's key is strictly above it (stable sort) |
| Locator.Locate | tests/test_github_actions_and_workflows.py:26-40 | nothing is found iff no file is a candidate; a found file is a candidate no candidate outranks, and it is the one Locator.BestIndex picks from the candidate list, so the earliest of several equal-key candidates wins as in a stable sort |
| Locator.LocateOnlyCandidates | tests/test_github_actions_and_workflows.py:36-37 | the search finds nothing exactly when the candidate list is empty, and otherwise returns a member of it |
| Locator.ConventionalBeatsFallback | tests/test_github_actions_and_workflows.py:38-40 | if any candidate path contains `.github/actions`, the chosen one does, whatever the lengths |
| Locator.ShorterPathWins | tests/test_github_actions_and_workflows.py:39-40 | among candidates with the same `.github/actions` flag as the chosen one, none is shorter |
| Steps.FindIndexFrom | tests/test_github_actions_and_workflows.py:53-57 | the search returns the first index from `from` whose step is a mapping with a string `uses` starting with the prefix, or reports that none qualifies |
| Steps.FindStepByUses | tests/test_github_actions_and_workflows.py:53-57 | the step returned is the first qualifying step in order, every earlier step does not qualify, and None is returned iff no step qualifies |
| Steps.FindStepIgnoresSuffix | tests/test_github_actions_and_workflows.py:54-56 | steps after the first qualifying one do not change the result |
| Validators.CheckTextPinAndRefs | tests/test_github_actions_and_workflows.py:67-69 | the first text test passes iff the text contains the v4.1.7 pin and both `with` references; a missing pin is reported first |
| Validators.CheckTextIfCondition | tests/test_github_actions_and_workflows.py:78-81 | the second text test passes iff the text contains `inputs.force-use-github`, the hosted-runner comparison and `== 'true'` |
| Validators.RequireKeys | tests/test_github_actions_and_workflows.py:91-92 | the key loop passes iff `k in v` evaluates to true for every listed key |
| Validators.RequireKeysOnMap | tests/test_github_actions_and_workflows.py:110-111 | on a mapping, the key loop passes iff every listed key is present |
| Validators.TopLevelKeysIff | tests/test_github_actions_and_workflows.py:91-92 | on a mapping, the top-level loop passes iff `name`, `description`, `inputs` and `runs` are all present |
| Validators.OrEmptyActsAsEmpty | tests/test_github_actions_and_workflows.py:109 | after `x or {}` a truthy value is kept as it is, and a falsy one behaves as an empty mapping: `k in` it is false and `.get` returns the default, neither raises |
| Validators.DescriptionPresent | tests/test_github_actions_and_workflows.py:95 | the description passes iff it is a string with a non-whitespace character |
| Validators.CheckRuns | tests/test_github_actions_and_workflows.py:97-100 | `runs` passes iff it is a mapping with `using` equal to "composite" and a non-empty list under `steps` |
| Validators.TopLevelPassIff | tests/test_github_actions_and_workflows.py:91-100 | the top-level test passes iff the document is a mapping with `inputs`, name "Download Artifact", a non-blank string description, and a valid `runs` |
| Validators.CheckDescriptors | tests/test_github_actions_and_workflows.py:110-126 | once `inputs` is fetched, the assertions pass iff it is a mapping whose `name.default` is "artifact", whose `path.required` is boolean true, and whose flag has default boolean false and a `required` that is absent or boolean false; anything else fails |
| Validators.CheckForceUseGithub | tests/test_github_actions_and_workflows.py:121-126 | the flag passes iff its default is the boolean `false` and its `required`, when present, is the boolean `false` |
| Validators.InputsPassIff | tests/test_github_actions_and_workflows.py:109-126 | the inputs test passes iff `inputs` is a mapping, `name.default` is "artifact", `path.required` is boolean true, the flag default is boolean false, and the flag's `required` is absent or boolean false |
| Validators.StringForceDefaultFails | tests/test_github_actions_and_workflows.py:122 | a string default for `force-use-github`, "false" included, fails the inputs test |
| Validators.ForceRequiredAsymmetry | tests/test_github_actions_and_workflows.py:123-126 | an absent `required` flag passes; a string-valued one fails as not boolean |
| Validators.CheckStep | tests/test_github_actions_and_workflows.py:138-147 | the found step passes iff it is pinned to exactly v4.1.7, has an `if` mentioning the flag and the hosted runner, and passes `name` and `path` through exactly |
| Validators.FirstMatchIsFound | tests/test_github_actions_and_workflows.py:136 | the first qualifying step is the one the search returns |
| Validators.DownloadStepPassSound | tests/test_github_actions_and_workflows.py:135-147 | a passing step test means the first download step of the step list is well formed |
| Validators.DownloadStepPassComplete | tests/test_github_actions_and_workflows.py:135-147 | a document whose first download step is well formed passes the step test |
| Validators.DownloadStepPassIff | tests/test_github_actions_and_workflows.py:135-147 | the step test passes iff `runs.steps` is a list whose first download step is pinned, guarded and passes the inputs through |
| Validators.OtherVersionFails | tests/test_github_actions_and_workflows.py:136-138 | a download step pinned to any other version fails on the pin assertion |
| Suite.RunOnText | tests/test_github_actions_and_workflows.py:45-51 | on a located file, a test skips iff it is structured and the parser is missing, and passes iff the file meets that test's declarative requirement |
| Suite.RunTest | tests/test_github_actions_and_workflows.py:36-37 | a test is skipped iff no candidate exists or it needs the missing parser, and passes iff a file is found that meets its requirement |
| Suite.NoCandidateSkipsAll | tests/test_github_actions_and_workflows.py:36-37 | with no candidate file, all five tests are skipped and none fails |
| Suite.FoundNeverSkips | tests/test_github_actions_and_workflows.py:45-51 | once a candidate exists and the parser is present, no test skips |
| Suite.ExampleTopLevelPasses | tests/test_github_actions_and_workflows.py:91-100 | the worked action passes the top-level test |
| Suite.ExampleInputsPass | tests/test_github_actions_and_workflows.py:109-126 | the worked action passes the inputs test |
| Suite.ExampleStepPasses | tests/test_github_actions_and_workflows.py:135-147 | the worked action passes the download-step test |
| Suite.ExampleStringDefaultFails | tests/test_github_actions_and_workflows.py:122 | the worked action with default "false" as a string fails the inputs test, on the assertion that the default is the boolean `false` |
| Suite.ExampleOldPinFails | tests/test_github_actions_and_workflows.py:138 | the worked action pinned to v4.0.0 fails the step test on the pin |

## Left out

- Glob traversal and pattern order (lines 18-28). The model takes the matched files as input, in glob order. A file matched by two patterns may appear twice, which does not change the result.
- File reading and UTF-8 decoding (lines 31-32, 43, 50). A failed read is an absent text. The text is the one Python's text mode yields, with newlines already translated. The second read by `_read_text` is assumed to return the same text, so a file that fails on that second read is not modelled.
- `Path` normalisation (line 29). The path string is taken to be `str(Path(p))` already.
- PyYAML and `pytest.importorskip` (lines 49-51). They become a loader function and an availability flag. Mapping keys are strings only. Floats, timestamps, merge keys and non-string keys are outside the value tree.
- Locator.UsingComposite, Locator.MatchesFrom, Locator.FirstMatchFrom, Locator.IsCandidate, Locator.UsingLineFound: `\b` treats only ASCII letters, digits and `_` as word characters, because Python's full Unicode letter and digit classes are not enumerated. A non-ASCII letter right after `composite` therefore counts as a boundary in the model but not in Python.
- Locator.Candidates: its contract states membership only. Order is stated by Locator.CandidatesAppend.
- Assertion messages and pytest's reporting. A failure carries a reason tag naming the assertion or the exception. pytest reports both as "failed".
