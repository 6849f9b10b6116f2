/**
  The document a YAML `safe_load` produces, as a typed value tree, and the
  Python operations the checks apply to it: dict subscript, `.get`, the `in`
  operator, iteration and truthiness. Each operation yields the exception
  Python raises where the value has the wrong shape, so a check that goes
  wrong on an odd document fails the way the test function does.
*/
module PyValue {
  import opened Wrappers
  import opened PyStr

  /** A parsed YAML node. Booleans and strings stay distinct: `is True` and
      `== "true"` are different questions. A mapping keeps its entries in
      document order. */
  datatype Value =
    | Str(s: string)
    | Bool(b: bool)
    | Int(i: int)
    | Null
    | Map(entries: seq<(string, Value)>)
    | List(items: seq<Value>)

  /** The Python exceptions the checked code can raise; `YamlError` is the
      parser's complaint about a malformed document. */
  datatype Error = TypeError | KeyError | AttributeError | YamlError

  /** Some entry of the mapping has this key. */
  ghost predicate HasKey(entries: seq<(string, Value)>, key: string) {
    exists i :: 0 <= i < |entries| && entries[i].0 == key
  }

  /** The value a dict built from `entries` holds for `key`. PyYAML assigns
      the entries in order, so of duplicate keys the last one wins. */
  function Lookup(entries: seq<(string, Value)>, key: string): (r: Option<Value>)
    ensures r.None? <==> !HasKey(entries, key)
    ensures r.Some? ==>
      exists i :: 0 <= i < |entries| && entries[i] == (key, r.value) &&
        forall j :: i < j < |entries| ==> entries[j].0 != key
  {
    if |entries| == 0 then None
    else if entries[|entries| - 1].0 == key then Some(entries[|entries| - 1].1)
    else
      var r := Lookup(entries[..|entries| - 1], key);
      assert HasKey(entries, key) ==> HasKey(entries[..|entries| - 1], key) by {
        if HasKey(entries, key) {
          var i :| 0 <= i < |entries| && entries[i].0 == key;
          assert entries[..|entries| - 1][i].0 == key;
        }
      }
      r
  }

  /** The last entry with a key is the one a lookup finds. */
  lemma LookupAt(entries: seq<(string, Value)>, key: string, i: nat)
    requires i < |entries| && entries[i].0 == key
    requires forall j :: i < j < |entries| ==> entries[j].0 != key
    ensures Lookup(entries, key) == Some(entries[i].1)
  {
    var r := Lookup(entries, key);
    assert HasKey(entries, key);
    var k :| 0 <= k < |entries| && entries[k] == (key, r.value) &&
      forall j :: k < j < |entries| ==> entries[j].0 != key;
    assert k == i;
  }

  /** Python truthiness, as used by `x or {}` and `assert x`. */
  predicate Truthy(v: Value) {
    match v
    case Str(s) => |s| > 0
    case Bool(b) => b
    case Int(i) => i != 0
    case Null => false
    case Map(entries) => |entries| > 0
    case List(items) => |items| > 0
  }

  /** Python's `v[key]` with a string key. */
  function Subscript(v: Value, key: string): (r: Result<Value, Error>)
    ensures r.Ok? <==> v.Map? && HasKey(v.entries, key)
    ensures r.Ok? ==> Lookup(v.entries, key) == Some(r.value)
    ensures r.Err? ==> r.error == (if v.Map? then KeyError else TypeError)
  {
    if !v.Map? then Err(TypeError)
    else match Lookup(v.entries, key)
      case Some(x) => Ok(x)
      case None => Err(KeyError)
  }

  /** Python's `v.get(key, default)`; only a dict has a `get` method. */
  function Get(v: Value, key: string, default: Value): (r: Result<Value, Error>)
    ensures r.Err? <==> !v.Map?
    ensures r.Err? ==> r.error == AttributeError
    ensures v.Map? && HasKey(v.entries, key) ==> r == Ok(Lookup(v.entries, key).value)
    ensures v.Map? && !HasKey(v.entries, key) ==> r == Ok(default)
  {
    if !v.Map? then Err(AttributeError)
    else match Lookup(v.entries, key)
      case Some(x) => Ok(x)
      case None => Ok(default)
  }

  /** Python's `key in v`: key membership for a dict, substring search for a
      str, element equality for a list; any other value is not a container. */
  function Member(key: string, v: Value): (r: Result<bool, Error>)
    ensures r.Err? <==> v.Null? || v.Bool? || v.Int?
    ensures r.Err? ==> r.error == TypeError
    ensures v.Map? ==> r == Ok(HasKey(v.entries, key))
    ensures v.Str? ==> r == Ok(Contains(v.s, key))
    ensures v.List? ==> (r == Ok(true) <==> exists i :: 0 <= i < |v.items| && v.items[i] == Str(key))
  {
    match v
    case Map(entries) => Ok(Lookup(entries, key).Some?)
    case Str(s) => Ok(In(key, s))
    case List(items) => Ok(Str(key) in items)
    case _ => Err(TypeError)
  }

  /** The elements `for x in v` visits: a list's items, a dict's keys, a
      str's one-character strings. A scalar cannot be iterated. A key written
      twice in the document is visited twice here; no caller can tell, since
      none of the visited elements is a mapping. */
  function Iterate(v: Value): (r: Result<seq<Value>, Error>)
    ensures r.Err? <==> v.Null? || v.Bool? || v.Int?
    ensures r.Err? ==> r.error == TypeError
    ensures v.List? ==> r == Ok(v.items)
    ensures v.Map? || v.Str? ==> r.Ok? && forall x :: x in r.value ==> x.Str?
  {
    match v
    case List(items) => Ok(items)
    case Map(entries) => Ok(seq(|entries|, i requires 0 <= i < |entries| => Str(entries[i].0)))
    case Str(s) => Ok(seq(|s|, i requires 0 <= i < |s| => Str([s[i]])))
    case _ => Err(TypeError)
  }
}
