/**
  The assertion logic of the five `test_action_*` functions, each as a pure
  function from the located file (its text, or its parsed document) to an
  outcome. The assertions run in the source's order, and the first one that
  fails, or the first Python exception, becomes the reason. Beside each check
  sits a plain statement of what a passing file looks like, and a lemma that
  the check passes exactly on such files.
*/
module Validators {
  import opened Wrappers
  import opened PyStr
  import opened PyValue
  import opened Steps

  /** The assertion clauses of the suite, one per `assert` statement. */
  datatype Check =
    // raw text, pinned version and `with` references
    | TextPin | TextWithName | TextWithPath
    // raw text, the `if` condition
    | TextForceUseGithub | TextGithubHosted | TextComparesTrue
    // top level and `runs`
    | KeyPresent(scope: Scope, key: string) | NameIsDownloadArtifact | DescriptionNonEmpty
    | RunsIsMapping | RunsUsingComposite | RunsStepsNonEmpty
    // `inputs`
    | NameDefaultArtifact | PathRequiredTrue | PathRequiredIsBool
    | ForceDefaultFalse | ForceRequiredIsBool | ForceRequiredFalse
    // the download step
    | StepPresent | StepPinned | StepHasIf | StepIfForceUseGithub | StepIfGithubHosted
    | StepWithName | StepWithPath

  /** Where a required key is looked for: the document, or its `inputs`. */
  datatype Scope = TopLevel | Inputs

  /** Why a test failed: an assertion that did not hold, or an exception. */
  datatype Reason = AssertFailed(check: Check) | Raised(error: Error)

  /** A pytest outcome. */
  datatype Outcome = Pass | Fail(reason: Reason) | Skip

  const ActionName := "Download Artifact"
  const Pin := "actions/download-artifact@v4.1.7"
  const PinPrefix := "actions/download-artifact@"
  const NameRef := "${{ inputs.name }}"
  const PathRef := "${{ inputs.path }}"
  const ForceInput := "inputs.force-use-github"
  const HostedCheck := "runner.environment == 'github-hosted'"
  const TrueComparison := "== 'true'"
  const TopLevelKeys := ["name", "description", "inputs", "runs"]
  const InputKeys := ["name", "path", "force-use-github"]

  /** `assert cond` with the clause it reports. */
  function Require(cond: bool, check: Check): (o: Outcome)
    ensures o == Pass <==> cond
    ensures o != Pass ==> o == Fail(AssertFailed(check))
  {
    if cond then Pass else Fail(AssertFailed(check))
  }

  // ---------------------------------------------------------------------
  // Raw-text checks.
  // ---------------------------------------------------------------------

  /** The text pins the download action to v4.1.7 and holds both `with` references. */
  function CheckTextPinAndRefs(content: string): (o: Outcome)
    ensures o == Pass <==>
      Contains(content, Pin) && Contains(content, "name: " + NameRef) && Contains(content, "path: " + PathRef)
    ensures !Contains(content, Pin) ==> o == Fail(AssertFailed(TextPin))
    ensures o != Pass ==> o.Fail? && o.reason.AssertFailed?
  {
    if !In(Pin, content) then Fail(AssertFailed(TextPin))
    else if !In("name: " + NameRef, content) then Fail(AssertFailed(TextWithName))
    else Require(In("path: " + PathRef, content), TextWithPath)
  }

  /** The text mentions the force flag, the hosted-runner comparison and a
      comparison against the string 'true'. */
  function CheckTextIfCondition(content: string): (o: Outcome)
    ensures o == Pass <==>
      Contains(content, ForceInput) && Contains(content, HostedCheck) && Contains(content, TrueComparison)
    ensures o != Pass ==> o.Fail? && o.reason.AssertFailed?
  {
    if !In(ForceInput, content) then Fail(AssertFailed(TextForceUseGithub))
    else if !In(HostedCheck, content) then Fail(AssertFailed(TextGithubHosted))
    else Require(In(TrueComparison, content), TextComparesTrue)
  }

  // ---------------------------------------------------------------------
  // Structured checks.
  // ---------------------------------------------------------------------

  /** `for key in keys: assert key in v`; the first missing key is reported. */
  function RequireKeys(scope: Scope, keys: seq<string>, v: Value): (o: Outcome)
    ensures o == Pass <==> forall k :: k in keys ==> Member(k, v) == Ok(true)
    ensures o != Pass ==> o.Fail?
  {
    if |keys| == 0 then Pass
    else match Member(keys[0], v)
      case Err(e) => Fail(Raised(e))
      case Ok(false) => Fail(AssertFailed(KeyPresent(scope, keys[0])))
      case Ok(true) => RequireKeys(scope, keys[1..], v)
  }

  /** Python's `x or {}`. */
  function OrEmpty(v: Value): (r: Value)
    ensures r == v || (r == Map([]) && !Truthy(v))
  {
    if Truthy(v) then v else Map([])
  }

  /** After `x or {}`, a falsy `x` behaves as an empty mapping: `k in` it is
      false and `.get` yields the default, neither raises; a truthy `x` is
      used as it is. */
  lemma OrEmptyActsAsEmpty(v: Value, k: string, default: Value)
    ensures Truthy(v) ==> OrEmpty(v) == v
    ensures !Truthy(v) ==> Member(k, OrEmpty(v)) == Ok(false)
    ensures !Truthy(v) ==> Get(OrEmpty(v), k, default) == Ok(default)
  {
    if !Truthy(v) {
      assert !HasKey([], k);
    }
  }

  /** `test_action_yaml_top_level_and_runs_using`. */
  function CheckTopLevel(data: Value): (o: Outcome)
    ensures o != Skip
  {
    var keys := RequireKeys(TopLevel, TopLevelKeys, data);
    if keys != Pass then keys
    else match Subscript(data, "name")
    case Err(e) => Fail(Raised(e))
    case Ok(name) =>
      if name != Str(ActionName) then Fail(AssertFailed(NameIsDownloadArtifact))
      else match Get(data, "description", Null)
      case Err(e) => Fail(Raised(e))
      case Ok(desc) =>
        if !DescriptionPresent(desc) then Fail(AssertFailed(DescriptionNonEmpty))
        else match Subscript(data, "runs")
        case Err(e) => Fail(Raised(e))
        case Ok(runs) => CheckRuns(runs)
  }

  /** `isinstance(desc, str) and desc.strip()`. */
  function DescriptionPresent(desc: Value): (r: bool)
    ensures r <==> IsNonBlankString(desc)
  {
    if desc.Str? then
      StripNonEmptyIff(desc.s);
      |Strip(desc.s)| > 0
    else false
  }

  /** The assertions about `runs` once it is fetched. */
  function CheckRuns(runs: Value): (o: Outcome)
    ensures o == Pass <==> RunsOk(runs)
    ensures o != Skip
  {
    if !runs.Map? then Fail(AssertFailed(RunsIsMapping))
    else if Get(runs, "using", Null) != Ok(Str("composite")) then Fail(AssertFailed(RunsUsingComposite))
    else match Get(runs, "steps", Null)
    case Err(e) => Fail(Raised(e))
    case Ok(steps) => Require(steps.List? && |steps.items| > 0, RunsStepsNonEmpty)
  }

  /** `test_action_yaml_inputs_schema_and_defaults`. */
  function CheckInputs(data: Value): (o: Outcome)
    ensures o != Skip
  {
    match Get(data, "inputs", Null)
    case Err(e) => Fail(Raised(e))
    case Ok(raw) => CheckDescriptors(OrEmpty(raw))
  }

  /** The assertions of the inputs test once `inputs` is fetched. */
  function CheckDescriptors(inputs: Value): (o: Outcome)
    ensures o == Pass <==> inputs.Map? && DescriptorsOk(inputs.entries)
    ensures o != Skip
  {
    var keys := RequireKeys(Inputs, InputKeys, inputs);
    if keys != Pass then keys
    else match Subscript(inputs, "name")
    case Err(e) => Fail(Raised(e))
    case Ok(name) =>
      match Get(name, "default", Null)
      case Err(e) => Fail(Raised(e))
      case Ok(nameDefault) =>
        if nameDefault != Str("artifact") then Fail(AssertFailed(NameDefaultArtifact))
        else match Subscript(inputs, "path")
        case Err(e) => Fail(Raised(e))
        case Ok(path) =>
          match Get(path, "required", Null)
          case Err(e) => Fail(Raised(e))
          case Ok(pathRequired) =>
            if pathRequired != Bool(true) then Fail(AssertFailed(PathRequiredTrue))
            else if !pathRequired.Bool? then Fail(AssertFailed(PathRequiredIsBool))
            else match Subscript(inputs, "force-use-github")
            case Err(e) => Fail(Raised(e))
            case Ok(fug) => CheckForceUseGithub(fug)
  }

  /** The `force-use-github` descriptor: a boolean `false` default, and a
      `required` flag that, only when present, must be the boolean `false`. */
  function CheckForceUseGithub(fug: Value): (o: Outcome)
    ensures o == Pass <==>
      fug.Map? && Lookup(fug.entries, "default") == Some(Bool(false)) &&
      (HasKey(fug.entries, "required") ==> Lookup(fug.entries, "required") == Some(Bool(false)))
    ensures o != Skip
  {
    match Get(fug, "default", Null)
    case Err(e) => Fail(Raised(e))
    case Ok(fugDefault) =>
      if fugDefault != Bool(false) then Fail(AssertFailed(ForceDefaultFalse))
      else match Member("required", fug)
      case Err(e) => Fail(Raised(e))
      case Ok(false) => Pass
      case Ok(true) =>
        match Subscript(fug, "required")
        case Err(e) => Fail(Raised(e))
        case Ok(required) =>
          if !required.Bool? then Fail(AssertFailed(ForceRequiredIsBool))
          else Require(required == Bool(false), ForceRequiredFalse)
  }

  /** `test_action_yaml_step_download_from_github_uses_and_with_block`. */
  function CheckDownloadStep(data: Value): (o: Outcome)
    ensures o != Skip
  {
    match Subscript(data, "runs")
    case Err(e) => Fail(Raised(e))
    case Ok(runs) =>
      match Subscript(runs, "steps")
      case Err(e) => Fail(Raised(e))
      case Ok(steps) =>
        match Iterate(steps)
        case Err(e) => Fail(Raised(e))
        case Ok(items) =>
          match FindStepByUses(items, PinPrefix)
          case None => Fail(AssertFailed(StepPresent))
          case Some(step) => CheckStep(step)
  }

  /** The assertions about the download step once it is found. */
  function CheckStep(step: Value): (o: Outcome)
    ensures o == Pass <==> DownloadStepOk(step)
    ensures o != Skip
  {
    match Get(step, "uses", Null)
    case Err(e) => Fail(Raised(e))
    case Ok(uses) =>
      if uses != Str(Pin) then Fail(AssertFailed(StepPinned))
      else match Get(step, "if", Str(""))
      case Err(e) => Fail(Raised(e))
      case Ok(cond) =>
        if !(cond.Str? && |cond.s| > 0) then Fail(AssertFailed(StepHasIf))
        else if !In(ForceInput, cond.s) then Fail(AssertFailed(StepIfForceUseGithub))
        else if !In(HostedCheck, cond.s) then Fail(AssertFailed(StepIfGithubHosted))
        else match Get(step, "with", Null)
        case Err(e) => Fail(Raised(e))
        case Ok(rawWith) =>
          var w := OrEmpty(rawWith);
          match Get(w, "name", Null)
          case Err(e) => Fail(Raised(e))
          case Ok(withName) =>
            if withName != Str(NameRef) then Fail(AssertFailed(StepWithName))
            else match Get(w, "path", Null)
            case Err(e) => Fail(Raised(e))
            case Ok(withPath) => Require(withPath == Str(PathRef), StepWithPath)
  }

  // ---------------------------------------------------------------------
  // What a passing document looks like, and the checks' agreement with it.
  // ---------------------------------------------------------------------

  /** A string with a character that is not whitespace. */
  ghost predicate IsNonBlankString(v: Value) {
    v.Str? && exists k :: 0 <= k < |v.s| && !IsSpace(v.s[k])
  }

  /** `runs` is a mapping running a composite action with at least one step. */
  ghost predicate RunsOk(runs: Value) {
    && runs.Map?
    && Lookup(runs.entries, "using") == Some(Str("composite"))
    && match Lookup(runs.entries, "steps")
       case Some(List(items)) => |items| > 0
       case _ => false
  }

  /** The top-level shape the first structured test demands. */
  ghost predicate TopLevelOk(data: Value) {
    && data.Map?
    && HasKey(data.entries, "inputs")
    && Lookup(data.entries, "name") == Some(Str(ActionName))
    && (match Lookup(data.entries, "description")
        case Some(d) => IsNonBlankString(d)
        case None => false)
    && (match Lookup(data.entries, "runs")
        case Some(runs) => RunsOk(runs)
        case None => false)
  }

  /** On a mapping, the key loop passes exactly when every key is present. */
  lemma RequireKeysOnMap(scope: Scope, keys: seq<string>, entries: seq<(string, Value)>)
    ensures RequireKeys(scope, keys, Map(entries)) == Pass <==> forall k :: k in keys ==> HasKey(entries, k)
  {
  }

  /** The top-level keys are all present. */
  ghost predicate TopLevelKeysPresent(entries: seq<(string, Value)>) {
    HasKey(entries, "name") && HasKey(entries, "description") && HasKey(entries, "inputs") && HasKey(entries, "runs")
  }

  lemma TopLevelKeysIff(entries: seq<(string, Value)>)
    ensures RequireKeys(TopLevel, TopLevelKeys, Map(entries)) == Pass <==> TopLevelKeysPresent(entries)
  {
    RequireKeysOnMap(TopLevel, TopLevelKeys, entries);
    assert TopLevelKeys[0] == "name" && TopLevelKeys[1] == "description";
    assert TopLevelKeys[2] == "inputs" && TopLevelKeys[3] == "runs";
  }

  lemma TopLevelPassIff(data: Value)
    ensures CheckTopLevel(data) == Pass <==> TopLevelOk(data)
  {
    if data.Map? {
      TopLevelKeysIff(data.entries);
    } else {
      assert Subscript(data, "name").Err?;
    }
  }

  /** Input `name` of the `inputs` mapping is a mapping whose `field` is `expected`. */
  ghost predicate DescriptorHas(inputs: seq<(string, Value)>, name: string, field: string, expected: Value) {
    match Lookup(inputs, name)
    case Some(Map(d)) => Lookup(d, field) == Some(expected)
    case _ => false
  }

  /** `force-use-github.required` is absent, or the boolean `false`. */
  ghost predicate ForceRequiredOk(inputs: seq<(string, Value)>) {
    match Lookup(inputs, "force-use-github")
    case Some(Map(fug)) => Lookup(fug, "required").None? || Lookup(fug, "required") == Some(Bool(false))
    case _ => false
  }

  /** The `inputs` shape the second structured test demands. */
  ghost predicate InputsOk(data: Value) {
    && data.Map?
    && match Lookup(data.entries, "inputs")
       case Some(Map(inputs)) => DescriptorsOk(inputs)
       case _ => false
  }

  /** The three input descriptors the inputs test demands. */
  ghost predicate DescriptorsOk(inputs: seq<(string, Value)>) {
    && DescriptorHas(inputs, "name", "default", Str("artifact"))
    && DescriptorHas(inputs, "path", "required", Bool(true))
    && DescriptorHas(inputs, "force-use-github", "default", Bool(false))
    && ForceRequiredOk(inputs)
  }

  lemma InputsPassIff(data: Value)
    ensures CheckInputs(data) == Pass <==> InputsOk(data)
  {
    if data.Map? {
      var raw := Get(data, "inputs", Null).value;
      OrEmptyActsAsEmpty(raw, "name", Null);
      if !Truthy(raw) {
        assert !DescriptorsOk([]);
      }
    }
  }

  /** The download step pins v4.1.7, guards on the force flag and the hosted
      runner, and passes both inputs through. */
  ghost predicate DownloadStepOk(step: Value) {
    && step.Map?
    && Lookup(step.entries, "uses") == Some(Str(Pin))
    && (match Lookup(step.entries, "if")
        case Some(Str(c)) => Contains(c, ForceInput) && Contains(c, HostedCheck)
        case _ => false)
    && (match Lookup(step.entries, "with")
        case Some(Map(w)) => Lookup(w, "name") == Some(Str(NameRef)) && Lookup(w, "path") == Some(Str(PathRef))
        case _ => false)
  }

  /** `items[i]` is the first step that calls the download action. */
  ghost predicate FirstDownloadStep(items: seq<Value>, i: int) {
    && 0 <= i < |items|
    && Qualifies(items[i], PinPrefix)
    && forall j :: 0 <= j < i ==> !Qualifies(items[j], PinPrefix)
  }

  /** The step list of the document, when it is a list under a `runs` mapping. */
  ghost predicate StepList(data: Value, items: seq<Value>) {
    && data.Map?
    && match Lookup(data.entries, "runs")
       case Some(Map(runs)) => Lookup(runs, "steps") == Some(List(items))
       case _ => false
  }

  /** The step shape the third structured test demands. */
  ghost predicate StepOk(data: Value) {
    exists items: seq<Value>, i: int :: StepList(data, items) && FirstDownloadStep(items, i) && DownloadStepOk(items[i])
  }

  /** A passing step test found the first download step and it was well formed. */
  lemma DownloadStepPassSound(data: Value)
    requires CheckDownloadStep(data) == Pass
    ensures StepOk(data)
  {
    var runs := Subscript(data, "runs").value;
    var steps := Subscript(runs, "steps").value;
    var items := Iterate(steps).value;
    var step := FindStepByUses(items, PinPrefix).value;
    var i :| 0 <= i < |items| && items[i] == step && Qualifies(items[i], PinPrefix) &&
      forall j :: 0 <= j < i ==> !Qualifies(items[j], PinPrefix);
    assert steps.List?;
    assert StepList(data, items) && FirstDownloadStep(items, i) && DownloadStepOk(items[i]);
  }

  /** A document whose first download step is well formed passes the step test. */
  lemma DownloadStepPassComplete(data: Value)
    requires StepOk(data)
    ensures CheckDownloadStep(data) == Pass
  {
    var items, i :| StepList(data, items) && FirstDownloadStep(items, i) && DownloadStepOk(items[i]);
    var runs := Lookup(data.entries, "runs").value;
    assert Subscript(data, "runs") == Ok(runs);
    assert Subscript(runs, "steps") == Ok(List(items));
    assert Iterate(List(items)) == Ok(items);
    FirstMatchIsFound(items, i);
    assert CheckStep(items[i]) == Pass;
  }

  /** The first qualifying step is the one the search returns. */
  lemma FirstMatchIsFound(items: seq<Value>, i: int)
    requires FirstDownloadStep(items, i)
    ensures FindStepByUses(items, PinPrefix) == Some(items[i])
  {
    var found := FindStepByUses(items, PinPrefix);
    var k :| 0 <= k < |items| && items[k] == found.value && Qualifies(items[k], PinPrefix) &&
      forall j :: 0 <= j < k ==> !Qualifies(items[j], PinPrefix);
    assert k == i;
  }

  lemma DownloadStepPassIff(data: Value)
    ensures CheckDownloadStep(data) == Pass <==> StepOk(data)
  {
    if CheckDownloadStep(data) == Pass {
      DownloadStepPassSound(data);
    }
    if StepOk(data) {
      DownloadStepPassComplete(data);
    }
  }

  /** The string "false" is not the boolean `false`: a string default for
      `force-use-github` fails the inputs test. */
  lemma StringForceDefaultFails(data: Value, s: string)
    requires data.Map?
    requires match Lookup(data.entries, "inputs")
             case Some(Map(inputs)) => DescriptorHas(inputs, "force-use-github", "default", Str(s))
             case _ => false
    ensures CheckInputs(data).Fail?
  {
    InputsPassIff(data);
  }

  /** A present `required` flag that is not a boolean is reported as such,
      while an absent one is accepted. */
  lemma ForceRequiredAsymmetry(fug: seq<(string, Value)>, s: string)
    requires Lookup(fug, "default") == Some(Bool(false))
    ensures !HasKey(fug, "required") ==> CheckForceUseGithub(Map(fug)) == Pass
    ensures Lookup(fug, "required") == Some(Str(s)) ==>
      CheckForceUseGithub(Map(fug)) == Fail(AssertFailed(ForceRequiredIsBool))
  {
  }

  /** A download step pinned to any other version fails on the pin. */
  lemma OtherVersionFails(data: Value, items: seq<Value>, i: int)
    requires StepList(data, items) && FirstDownloadStep(items, i)
    requires Lookup(items[i].entries, "uses") != Some(Str(Pin))
    ensures CheckDownloadStep(data) == Fail(AssertFailed(StepPinned))
  {
    FirstMatchIsFound(items, i);
  }
}
