/**
  The five tests of the suite, each run against the result of the search.
  No file found means every test is skipped; a missing YAML parser skips the
  three structured tests. The parser itself is a parameter: a function from
  the file's text to the document it loads, or `None` when it raises.
*/
module Suite {
  import opened Wrappers
  import opened PyStr
  import opened Locator
  import opened PyValue
  import opened Validators

  datatype Test =
    | TextPinAndRefs      // test_action_text_has_pinned_download_artifact_version_and_with_refs
    | TextIfCondition     // test_action_text_if_condition_mentions_expected_predicates
    | YamlTopLevel        // test_action_yaml_top_level_and_runs_using
    | YamlInputs          // test_action_yaml_inputs_schema_and_defaults
    | YamlDownloadStep    // test_action_yaml_step_download_from_github_uses_and_with_block
  {
    /** The test needs the YAML parser. */
    predicate Structured() {
      YamlTopLevel? || YamlInputs? || YamlDownloadStep?
    }
  }

  const AllTests := [TextPinAndRefs, TextIfCondition, YamlTopLevel, YamlInputs, YamlDownloadStep]

  /** The checks of a structured test on a loaded document. */
  function CheckDocument(t: Test, data: Value): (o: Outcome)
    requires t.Structured()
    ensures o != Skip
  {
    match t
    case YamlTopLevel => CheckTopLevel(data)
    case YamlInputs => CheckInputs(data)
    case YamlDownloadStep => CheckDownloadStep(data)
  }

  /** What passing test `t` demands of the located file's text. */
  ghost predicate TestOk(t: Test, text: string, parse: string -> Option<Value>) {
    match t
    case TextPinAndRefs =>
      Contains(text, Pin) && Contains(text, "name: " + NameRef) && Contains(text, "path: " + PathRef)
    case TextIfCondition =>
      Contains(text, ForceInput) && Contains(text, HostedCheck) && Contains(text, TrueComparison)
    case YamlTopLevel => parse(text).Some? && TopLevelOk(parse(text).value)
    case YamlInputs => parse(text).Some? && InputsOk(parse(text).value)
    case YamlDownloadStep => parse(text).Some? && StepOk(parse(text).value)
  }

  /** One test on the text of the located file. */
  function RunOnText(t: Test, text: string, parserAvailable: bool, parse: string -> Option<Value>): (o: Outcome)
    ensures o == Skip <==> t.Structured() && !parserAvailable
    ensures o == Pass <==> (!t.Structured() || parserAvailable) && TestOk(t, text, parse)
  {
    match t
    case TextPinAndRefs => CheckTextPinAndRefs(text)
    case TextIfCondition => CheckTextIfCondition(text)
    case _ =>
      if !parserAvailable then Skip
      else match parse(text)
        case None => Fail(Raised(YamlError))
        case Some(data) =>
          TopLevelPassIff(data);
          InputsPassIff(data);
          DownloadStepPassIff(data);
          CheckDocument(t, data)
  }

  /** One test of the suite, from the globbed files to its outcome. */
  function RunTest(t: Test, files: seq<FileEntry>, parserAvailable: bool, parse: string -> Option<Value>): (o: Outcome)
    ensures o == Skip <==> Locate(files).NotFound? || (t.Structured() && !parserAvailable)
    ensures o == Pass <==>
      && Locate(files).Found?
      && (!t.Structured() || parserAvailable)
      && TestOk(t, Locate(files).file.text.value, parse)
  {
    match Locate(files)
    case NotFound => Skip
    case Found(f) => RunOnText(t, f.text.value, parserAvailable, parse)
  }

  /** With no candidate file, every test is skipped; none fails. */
  lemma NoCandidateSkipsAll(files: seq<FileEntry>, parserAvailable: bool, parse: string -> Option<Value>)
    requires forall f :: f in files ==> !IsCandidate(f)
    ensures forall t :: t in AllTests ==> RunTest(t, files, parserAvailable, parse) == Skip
  {
  }

  /** Once a file is found and the parser is there, no test is skipped. */
  lemma FoundNeverSkips(t: Test, files: seq<FileEntry>, parse: string -> Option<Value>)
    requires exists f :: f in files && IsCandidate(f)
    ensures RunTest(t, files, true, parse) != Skip
  {
  }

  // ---------------------------------------------------------------------
  // A worked document: the action as the suite expects it.
  // ---------------------------------------------------------------------

  /** `${{ inputs.force-use-github == 'true' || runner.environment == 'github-hosted' }}` */
  const IfCondition := "${{ " + ForceInput + " == 'true' || " + HostedCheck + " }}"

  /** The download step of a well-formed action, pinned to `version`. */
  function StepEntries(version: string): seq<(string, Value)> {
    [ ("name", Str("Download from GitHub")),
      ("uses", Str(PinPrefix + version)),
      ("if", Str(IfCondition)),
      ("with", Map([("name", Str(NameRef)), ("path", Str(PathRef))])) ]
  }

  /** The steps of a well-formed action: a shell step, then the download step. */
  function ExampleSteps(version: string): seq<Value> {
    [Map([("run", Str("echo start"))]), Map(StepEntries(version))]
  }

  /** The `runs` block of a well-formed action. */
  function RunsEntries(version: string): seq<(string, Value)> {
    [("using", Str("composite")), ("steps", List(ExampleSteps(version)))]
  }

  /** The `inputs` block, with `forceDefault` as the flag's default. */
  function InputsEntries(forceDefault: Value): seq<(string, Value)> {
    [ ("name", Map([("default", Str("artifact"))])),
      ("path", Map([("required", Bool(true))])),
      ("force-use-github", Map([("default", forceDefault)])) ]
  }

  /** A well-formed action whose `force-use-github` default is `forceDefault`
      and whose download step is pinned to `version`. */
  function ExampleAction(forceDefault: Value, version: string): Value {
    Map([
      ("name", Str("Download Artifact")),
      ("description", Str("Download an artifact")),
      ("inputs", Map(InputsEntries(forceDefault))),
      ("runs", Map(RunsEntries(version)))])
  }

  lemma TopLookups(forceDefault: Value, version: string)
    ensures var e := ExampleAction(forceDefault, version).entries;
      && Lookup(e, "name") == Some(Str("Download Artifact"))
      && Lookup(e, "description") == Some(Str("Download an artifact"))
      && Lookup(e, "inputs") == Some(Map(InputsEntries(forceDefault)))
      && Lookup(e, "runs") == Some(Map(RunsEntries(version)))
  {
    var e := ExampleAction(forceDefault, version).entries;
    LookupAt(e, "name", 0);
    LookupAt(e, "description", 1);
    LookupAt(e, "inputs", 2);
    LookupAt(e, "runs", 3);
  }

  lemma RunsLookups(version: string)
    ensures Lookup(RunsEntries(version), "using") == Some(Str("composite"))
    ensures Lookup(RunsEntries(version), "steps") == Some(List(ExampleSteps(version)))
  {
    LookupAt(RunsEntries(version), "using", 0);
    LookupAt(RunsEntries(version), "steps", 1);
  }

  lemma InputsLookups(forceDefault: Value)
    ensures var i := InputsEntries(forceDefault);
      && Lookup(i, "name") == Some(Map([("default", Str("artifact"))]))
      && Lookup(i, "path") == Some(Map([("required", Bool(true))]))
      && Lookup(i, "force-use-github") == Some(Map([("default", forceDefault)]))
    ensures Lookup([("default", Str("artifact"))], "default") == Some(Str("artifact"))
    ensures Lookup([("required", Bool(true))], "required") == Some(Bool(true))
    ensures Lookup([("default", forceDefault)], "default") == Some(forceDefault)
    ensures Lookup([("default", forceDefault)], "required") == None
  {
    var i := InputsEntries(forceDefault);
    LookupAt(i, "name", 0);
    LookupAt(i, "path", 1);
    LookupAt(i, "force-use-github", 2);
    LookupAt([("default", Str("artifact"))], "default", 0);
    LookupAt([("required", Bool(true))], "required", 0);
    LookupAt([("default", forceDefault)], "default", 0);
  }

  lemma StepLookups(version: string)
    ensures var s := StepEntries(version);
      && Lookup(s, "uses") == Some(Str(PinPrefix + version))
      && Lookup(s, "if") == Some(Str(IfCondition))
      && Lookup(s, "with") == Some(Map([("name", Str(NameRef)), ("path", Str(PathRef))]))
    ensures Lookup([("name", Str(NameRef)), ("path", Str(PathRef))], "name") == Some(Str(NameRef))
    ensures Lookup([("name", Str(NameRef)), ("path", Str(PathRef))], "path") == Some(Str(PathRef))
    ensures Lookup([("run", Str("echo start"))], "uses") == None
  {
    var s := StepEntries(version);
    LookupAt(s, "uses", 1);
    LookupAt(s, "if", 2);
    LookupAt(s, "with", 3);
    LookupAt([("name", Str(NameRef)), ("path", Str(PathRef))], "name", 0);
    LookupAt([("name", Str(NameRef)), ("path", Str(PathRef))], "path", 1);
  }

  /** The well-formed action passes the top-level test. */
  lemma ExampleTopLevelPasses()
    ensures CheckTopLevel(ExampleAction(Bool(false), "v4.1.7")) == Pass
  {
    TopLookups(Bool(false), "v4.1.7");
    RunsLookups("v4.1.7");
    assert !IsSpace("Download an artifact"[0]);
    TopLevelPassIff(ExampleAction(Bool(false), "v4.1.7"));
  }

  /** The well-formed action passes the inputs test. */
  lemma ExampleInputsPass()
    ensures CheckInputs(ExampleAction(Bool(false), "v4.1.7")) == Pass
  {
    TopLookups(Bool(false), "v4.1.7");
    InputsLookups(Bool(false));
    InputsPassIff(ExampleAction(Bool(false), "v4.1.7"));
  }

  /** The download step is the first step calling the download action. */
  lemma ExampleStepIsFirst(version: string)
    ensures StepList(ExampleAction(Bool(false), version), ExampleSteps(version))
    ensures FirstDownloadStep(ExampleSteps(version), 1)
  {
    TopLookups(Bool(false), version);
    RunsLookups(version);
    StepLookups(version);
    assert StartsWith(PinPrefix + version, PinPrefix);
  }

  /** The example condition mentions the force flag and the hosted runner. */
  lemma ExampleConditionMentions()
    ensures Contains(IfCondition, ForceInput)
    ensures Contains(IfCondition, HostedCheck)
  {
    ContainsInfix("${{ ", ForceInput, " == 'true' || " + HostedCheck + " }}");
    assert IfCondition == "${{ " + ForceInput + (" == 'true' || " + HostedCheck + " }}");
    ContainsInfix("${{ " + ForceInput + " == 'true' || ", HostedCheck, " }}");
  }

  /** The example download step satisfies every requirement on the step. */
  lemma ExampleDownloadStepOk()
    ensures DownloadStepOk(Map(StepEntries("v4.1.7")))
  {
    StepLookups("v4.1.7");
    assert PinPrefix + "v4.1.7" == Pin;
    ExampleConditionMentions();
  }

  /** The well-formed action passes the download-step test. */
  lemma ExampleStepPasses()
    ensures CheckDownloadStep(ExampleAction(Bool(false), "v4.1.7")) == Pass
  {
    ExampleStepIsFirst("v4.1.7");
    ExampleDownloadStepOk();
    assert ExampleSteps("v4.1.7")[1] == Map(StepEntries("v4.1.7"));
    DownloadStepPassIff(ExampleAction(Bool(false), "v4.1.7"));
  }

  /** The same action with the string "false" as the flag's default fails
      the inputs test. */
  lemma ExampleStringDefaultFails()
    ensures CheckInputs(ExampleAction(Str("false"), "v4.1.7")) == Fail(AssertFailed(ForceDefaultFalse))
  {
    var data := ExampleAction(Str("false"), "v4.1.7");
    var inputs := Map(InputsEntries(Str("false")));
    TopLookups(Str("false"), "v4.1.7");
    InputsLookups(Str("false"));
    assert Get(data, "inputs", Null) == Ok(inputs);
    OrEmptyActsAsEmpty(inputs, "name", Null);
    RequireKeysOnMap(Inputs, InputKeys, inputs.entries);
    assert RequireKeys(Inputs, InputKeys, inputs) == Pass;
    assert CheckForceUseGithub(Map([("default", Str("false"))])) == Fail(AssertFailed(ForceDefaultFalse));
  }

  /** The same action pinned to v4.0.0 fails the download-step test on the pin. */
  lemma ExampleOldPinFails()
    ensures CheckDownloadStep(ExampleAction(Bool(false), "v4.0.0")) == Fail(AssertFailed(StepPinned))
  {
    ExampleStepIsFirst("v4.0.0");
    StepLookups("v4.0.0");
    assert PinPrefix + "v4.0.0" != Pin by {
      assert (PinPrefix + "v4.0.0")[|PinPrefix| + 3] == '0';
    }
    OtherVersionFails(ExampleAction(Bool(false), "v4.0.0"), ExampleSteps("v4.0.0"), 1);
  }
}
