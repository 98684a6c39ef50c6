/**
 * JSON values as the Python code sees them after `json.loads`, Python's `==` on
 * them, their truthiness, their `str()`/`repr()` text, and the record of Python
 * facilities the model takes as given (`json.loads`, `json.dumps`, float and
 * string `repr`, and the TypeScript-stripping rewrite).
 */
module Json {
  import opened Wrappers
  import Text

  /**
   * A decoded JSON value. `JNull` is Python's `None`. A `JObject` lists the
   * items of a Python dict in insertion order; the keys of a decoded object are
   * distinct. A float is kept as its exact real value, so NaN and the
   * infinities have no representation.
   */
  datatype Json =
    | JNull
    | JBool(b: bool)
    | JInt(i: int)
    | JFloat(r: real)
    | JString(s: string)
    | JArray(items: seq<Json>)
    | JObject(fields: seq<(string, Json)>)

  /**
   * What the model takes as given from the Python runtime: decoding (`None` is a
   * `JSONDecodeError`), encoding, the text of a float, the quoted `repr` of a
   * string, and `execute_typescript_as_javascript`'s regular-expression rewrites.
   */
  datatype Runtime = Runtime(
    loads: string -> Option<Json>,
    dumps: Json -> string,
    floatRepr: real -> string,
    strRepr: string -> string,
    stripTypes: string -> string)

  // ---------------------------------------------------------------------------
  // dict access
  // ---------------------------------------------------------------------------

  /** `key in d`. */
  predicate HasKey(fields: seq<(string, Json)>, key: string) {
    exists i :: 0 <= i < |fields| && fields[i].0 == key
  }

  /** `d.get(key)`: the value stored under `key`, or `None`. */
  function Get(fields: seq<(string, Json)>, key: string): (r: Option<Json>)
    ensures r.Some? <==> HasKey(fields, key)
    ensures r.Some? ==> exists i :: 0 <= i < |fields| && fields[i] == (key, r.value)
  {
    if |fields| == 0 then None
    else if fields[0].0 == key then Some(fields[0].1)
    else
      var r := Get(fields[1..], key);
      if r.Some? then
        var i :| 0 <= i < |fields[1..]| && fields[1..][i] == (key, r.value);
        assert fields[i + 1] == (key, r.value);
        r
      else
        assert forall i :: 1 <= i < |fields| ==> fields[i] == fields[1..][i - 1];
        None
  }

  /** `d.get(key, default)`. */
  function GetOr(fields: seq<(string, Json)>, key: string, default: Json): Json {
    Get(fields, key).GetOr(default)
  }

  // ---------------------------------------------------------------------------
  // Python's view of the value
  // ---------------------------------------------------------------------------

  /** `bool(v)`: Python truthiness. */
  predicate Truthy(v: Json) {
    match v
    case JNull => false
    case JBool(b) => b
    case JInt(i) => i != 0
    case JFloat(r) => r != 0.0
    case JString(s) => s != ""
    case JArray(items) => items != []
    case JObject(fields) => fields != []
  }

  /** `type(v).__name__`. */
  function TypeName(v: Json): string {
    match v
    case JNull => "NoneType"
    case JBool(_) => "bool"
    case JInt(_) => "int"
    case JFloat(_) => "float"
    case JString(_) => "str"
    case JArray(_) => "list"
    case JObject(_) => "dict"
  }

  /** The message of the `AttributeError` raised by `v.<attribute>`. */
  function AttributeError(v: Json, attribute: string): string {
    "'" + TypeName(v) + "' object has no attribute '" + attribute + "'"
  }

  /** `isinstance(v, int)`, which also holds of `True` and `False`. */
  predicate IsInt(v: Json) {
    v.JInt? || v.JBool?
  }

  predicate IsNumber(v: Json) {
    v.JBool? || v.JInt? || v.JFloat?
  }

  function NumberValue(v: Json): real
    requires IsNumber(v)
  {
    match v
    case JBool(b) => if b then 1.0 else 0.0
    case JInt(i) => i as real
    case JFloat(r) => r
  }

  /**
   * Python's `a == b` on decoded values: numbers compare by value across
   * `bool`, `int` and `float`; lists element-wise; dicts by key set and values.
   * Apart from numbers, values of different kinds are never equal, `None`
   * equals only `None`, and a string only the same string.
   */
  predicate PyEq(a: Json, b: Json)
    ensures PyEq(a, b) ==> IsNumber(a) == IsNumber(b)
    ensures PyEq(a, b) && !IsNumber(a) ==>
      a.JNull? == b.JNull? && a.JString? == b.JString? && a.JArray? == b.JArray? && a.JObject? == b.JObject?
    ensures a.JNull? ==> (PyEq(a, b) <==> b.JNull?)
    ensures a.JString? ==> (PyEq(a, b) <==> b == a)
    decreases a
  {
    if IsNumber(a) || IsNumber(b) then
      IsNumber(a) && IsNumber(b) && NumberValue(a) == NumberValue(b)
    else
      match a
      case JNull => b.JNull?
      case JString(s) => b.JString? && b.s == s
      case JArray(xs) =>
        && b.JArray?
        && |xs| == |b.items|
        && forall i :: 0 <= i < |xs| ==> PyEq(xs[i], b.items[i])
      case JObject(fs) =>
        && b.JObject?
        && |fs| == |b.fields|
        && forall i :: 0 <= i < |fs| ==>
             HasKey(b.fields, fs[i].0) && PyEq(fs[i].1, GetOr(b.fields, fs[i].0, JNull))
  }

  /** `repr(v)`. */
  function PyRepr(v: Json, rt: Runtime): string
    decreases v
  {
    match v
    case JNull => "None"
    case JBool(b) => if b then "True" else "False"
    case JInt(i) => Text.IntToDecimal(i)
    case JFloat(r) => rt.floatRepr(r)
    case JString(s) => rt.strRepr(s)
    case JArray(items) =>
      "[" + Text.Join(seq(|items|, k requires 0 <= k < |items| => PyRepr(items[k], rt)), ", ") + "]"
    case JObject(fs) =>
      "{" + Text.Join(seq(|fs|, k requires 0 <= k < |fs| =>
                            rt.strRepr(fs[k].0) + ": " + PyRepr(fs[k].1, rt)), ", ") + "}"
  }

  /** `str(v)`: a string is its own text, everything else is its `repr`. */
  function PyStr(v: Json, rt: Runtime): string {
    if v.JString? then v.s else PyRepr(v, rt)
  }

  /** `True == 1 == 1.0` in Python; `False == 0`; neither equals `None`. */
  lemma NumbersCompareByValue()
    ensures PyEq(JBool(true), JInt(1)) && PyEq(JInt(1), JFloat(1.0))
    ensures PyEq(JBool(false), JInt(0)) && !PyEq(JBool(false), JNull)
    ensures !PyEq(JString("1"), JInt(1))
  {
  }
}
