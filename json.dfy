/**
 * Decoded JSON values as Python holds them after `json.loads`, and the few Python operations
 * the migrator applies to them: `x[key]`, `x.get(key)`, iteration and truthiness.
 */
module Json {
  import opened Wrappers
  import opened Dicts

  /** Numbers are integers only; floating point is not part of this model. */
  datatype Value =
    | Null
    | Bool(b: bool)
    | Num(n: int)
    | Str(s: string)
    | Arr(elems: seq<Value>)
    | Obj(fields: Dict<Value>)

  /** Python truthiness: `None`, `False`, `0` and empty strings, lists and dicts are false. */
  predicate Truthy(v: Value)
    ensures Truthy(v) <==> v !in {Null, Bool(false), Num(0), Str(""), Arr([]), Obj([])}
  {
    match v
    case Null => false
    case Bool(b) => b
    case Num(n) => n != 0
    case Str(s) => s != ""
    case Arr(elems) => elems != []
    case Obj(fields) => fields != []
  }

  /** `v[key]` with a string key: `None` where Python raises (TypeError on a non-dict, KeyError on a missing key). */
  function Subscript(v: Value, key: string): (r: Option<Value>)
    ensures r.Some? <==> v.Obj? && key in Keys(v.fields)
    ensures r.Some? ==> (key, r.value) in v.fields
  {
    match v
    case Obj(fields) => Lookup(fields, key)
    case _ => None
  }

  /** `v.get(key)`: a missing key reads as `None` (JSON null); `None` where Python raises AttributeError. */
  function Get(v: Value, key: string): (r: Option<Value>)
    ensures r.None? <==> !v.Obj?
    ensures v.Obj? && key in Keys(v.fields) ==> r == Subscript(v, key)
    ensures v.Obj? && key !in Keys(v.fields) ==> r == Some(Null)
  {
    match v
    case Obj(fields) => Some(Lookup(fields, key).GetOr(Null))
    case _ => None
  }

  /** What `for x in v` yields: a list's elements, a string's characters, a dict's keys; `None` where Python raises TypeError. */
  function Iterate(v: Value): (r: Option<seq<Value>>)
    ensures r.None? <==> !(v.Arr? || v.Str? || v.Obj?)
    ensures v.Arr? ==> r == Some(v.elems)
    ensures v.Str? ==> |r.value| == |v.s| && forall i :: 0 <= i < |v.s| ==> r.value[i] == Str([v.s[i]])
    ensures v.Obj? ==> |r.value| == |v.fields| && forall i :: 0 <= i < |v.fields| ==> r.value[i] == Str(Keys(v.fields)[i])
  {
    match v
    case Arr(elems) => Some(elems)
    case Str(s) => Some(seq(|s|, i requires 0 <= i < |s| => Str([s[i]])))
    case Obj(fields) => Some(seq(|fields|, i requires 0 <= i < |fields| => Str(fields[i].0)))
    case _ => None
  }
}
