/** `_find_step_by_uses`: the first step of a composite action that calls a
    given reusable action. */
module Steps {
  import opened Wrappers
  import opened PyStr
  import opened PyValue

  /** The step is a mapping whose `uses` is a string starting with `prefix`. */
  predicate Qualifies(step: Value, prefix: string) {
    step.Map? &&
    match Lookup(step.entries, "uses")
    case Some(Str(u)) => StartsWith(u, prefix)
    case _ => false
  }

  /** The first index at or after `from` of a qualifying step. */
  function FindIndexFrom(steps: seq<Value>, prefix: string, from: nat): (r: Option<nat>)
    decreases |steps| - from
    ensures r.Some? ==> from <= r.value < |steps| && Qualifies(steps[r.value], prefix)
    ensures r.Some? ==> forall j :: from <= j < r.value ==> !Qualifies(steps[j], prefix)
    ensures r.None? ==> forall j :: from <= j < |steps| ==> !Qualifies(steps[j], prefix)
  {
    if from >= |steps| then None
    else if Qualifies(steps[from], prefix) then Some(from)
    else FindIndexFrom(steps, prefix, from + 1)
  }

  /** The first step, in order, that is a mapping with a string `uses`
      starting with `prefix`; `None` exactly when there is none. */
  function FindStepByUses(steps: seq<Value>, prefix: string): (r: Option<Value>)
    ensures r.None? <==> forall j :: 0 <= j < |steps| ==> !Qualifies(steps[j], prefix)
    ensures r.Some? ==>
      exists i :: 0 <= i < |steps| && steps[i] == r.value && Qualifies(steps[i], prefix) &&
        forall j :: 0 <= j < i ==> !Qualifies(steps[j], prefix)
  {
    match FindIndexFrom(steps, prefix, 0)
    case Some(i) => Some(steps[i])
    case None => None
  }

  /** Whatever comes after the first qualifying step does not change the answer. */
  lemma {:induction false} FindStepIgnoresSuffix(steps: seq<Value>, rest: seq<Value>, prefix: string)
    requires FindStepByUses(steps, prefix).Some?
    ensures FindStepByUses(steps + rest, prefix) == FindStepByUses(steps, prefix)
  {
    var i := FindIndexFrom(steps, prefix, 0).value;
    var s := steps + rest;
    assert s[i] == steps[i];
    assert forall j :: 0 <= j < i ==> s[j] == steps[j];
  }
}
