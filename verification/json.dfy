/** Decoded JSON values as the Python code sees them after `resp.json()` or
    `json.loads`, with the few Python operations the fetchers apply to them:
    truthiness, `dict.get`, arithmetic and iteration. */
module Json {
  import opened Wrappers

  datatype Value =
    | Null
    | Bool(b: bool)
    | Num(n: real)
    | Str(s: string)
    | Arr(items: seq<Value>)
    | Obj(fields: map<string, Value>)

  /** Python truthiness of a decoded value (`if v:`). */
  predicate Truthy(v: Value) {
    match v
    case Null => false
    case Bool(b) => b
    case Num(n) => n != 0.0
    case Str(s) => |s| > 0
    case Arr(xs) => |xs| > 0
    case Obj(m) => |m| > 0
  }

  /** `v.get(key, default)`; `None` when `v` is not a dict (AttributeError). */
  function GetOr(v: Value, key: string, default: Value): (r: Option<Value>)
    ensures r.Some? <==> v.Obj?
    ensures v.Obj? && key in v.fields ==> r == Some(v.fields[key])
    ensures v.Obj? && key !in v.fields ==> r == Some(default)
  {
    if v.Obj? then Some(if key in v.fields then v.fields[key] else default) else None
  }

  /** `v.get(key)` followed by a truthiness test, as in
      `if v.get(key) and ...`: the member when it exists and is truthy.
      A non-dict `v` raises, which every caller turns into `None` too. */
  function TruthyMember(v: Value, key: string): (r: Option<Value>)
    ensures r.Some? <==> v.Obj? && key in v.fields && Truthy(v.fields[key])
    ensures r.Some? ==> r.value == v.fields[key]
  {
    if v.Obj? && key in v.fields && Truthy(v.fields[key]) then Some(v.fields[key]) else None
  }

  /** The number Python arithmetic sees in a decoded value: JSON numbers, and
      booleans as 0 or 1; any other kind makes `/` raise TypeError. */
  function AsNumber(v: Value): (r: Option<real>)
    ensures v.Num? ==> r == Some(v.n)
    ensures r.Some? <==> v.Num? || v.Bool?
  {
    match v
    case Num(n) => Some(n)
    case Bool(b) => Some(if b then 1.0 else 0.0)
    case _ => None
  }

  /** What slicing and iterating a value yields: a list's items, or a string's
      characters as one-character strings. Dicts and scalars give `None`:
      slicing a dict or iterating a number raises, and iterating a dict
      yields string keys on which every use in the fetchers raises. */
  function AsSequence(v: Value): (r: Option<seq<Value>>)
    ensures v.Arr? ==> r == Some(v.items)
    ensures v.Str? ==> r.Some? && |r.value| == |v.s|
    ensures r.Some? <==> v.Arr? || v.Str?
  {
    match v
    case Arr(xs) => Some(xs)
    case Str(s) => Some(seq(|s|, i requires 0 <= i < |s| => Str([s[i]])))
    case _ => None
  }
}
