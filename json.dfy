/**
 * A decoded JSON document as the script sees it: the Python values that
 * `response.json()` yields (None, bool, int, str, list, dict), with the
 * three dict and list operations the script uses on them: `d.get(k, default)`,
 * `k in d` and `d.keys()`, plus Python's truthiness and `len`.
 */
module PyJson {
  import opened Wrappers

  datatype Json =
    | JNull
    | JBool(b: bool)
    | JNum(n: int)
    | JStr(s: string)
    | JArr(items: seq<Json>)
    | JObj(fields: seq<Field>)

  /** One entry of a dict, in insertion order. A decoded dict has distinct keys. */
  datatype Field = Field(key: string, value: Json)

  /** `{}` and `[]`, the defaults the script passes to `get` */
  const EmptyObj: Json := JObj([])
  const EmptyArr: Json := JArr([])

  /** `bool(v)`: None, False, 0, the empty str, list and dict are false */
  predicate Truthy(v: Json) {
    match v
    case JNull => false
    case JBool(b) => b
    case JNum(n) => n != 0
    case JStr(s) => s != ""
    case JArr(items) => items != []
    case JObj(fields) => fields != []
  }

  /** `list(d.keys())`: the keys of a dict in insertion order */
  function Keys(fields: seq<Field>): (ks: seq<string>)
    ensures |ks| == |fields|
    ensures forall i :: 0 <= i < |fields| ==> ks[i] == fields[i].key
  {
    if fields == [] then [] else [fields[0].key] + Keys(fields[1..])
  }

  /** A dict holds each key once, as every dict `response.json()` builds does */
  predicate DistinctKeys(fields: seq<Field>) {
    forall i, j :: 0 <= i < j < |fields| ==> fields[i].key != fields[j].key
  }

  /** `key in d` */
  predicate HasKey(o: Json, key: string)
    requires o.JObj?
  {
    key in Keys(o.fields)
  }

  /** `t in s` for two strs: `t` occurs in `s` as a contiguous run */
  predicate HasInfix(s: string, t: string)
    decreases |s|
  {
    |t| <= |s| && (s[..|t|] == t || (|s| > 0 && HasInfix(s[1..], t)))
  }

  /**
   * `key in v` for the three types on which `in` is defined here: a key of a
   * dict, an element equal to the str in a list, a substring of a str
   */
  predicate Contains(v: Json, key: string)
    requires v.JObj? || v.JArr? || v.JStr?
  {
    match v
    case JObj(_) => HasKey(v, key)
    case JArr(items) => JStr(key) in items
    case JStr(s) => HasInfix(s, key)
  }

  /** The value stored under `key`, if any: that of the first entry with that key */
  function Lookup(fields: seq<Field>, key: string): Option<Json> {
    if fields == [] then None
    else if fields[0].key == key then Some(fields[0].value)
    else Lookup(fields[1..], key)
  }

  /** A lookup finds a value exactly when the key is present, and the value found is stored under it */
  lemma {:induction false} LookupSpec(fields: seq<Field>, key: string)
    ensures Lookup(fields, key).None? <==> key !in Keys(fields)
    ensures Lookup(fields, key).Some? ==> Field(key, Lookup(fields, key).value) in fields
  {
    if fields != [] {
      LookupSpec(fields[1..], key);
      assert Keys(fields) == [fields[0].key] + Keys(fields[1..]);
    }
  }

  /** `d.get(key, default)`: a key that is present yields its value, even a JSON null */
  function Get(o: Json, key: string, default: Json): Json
    requires o.JObj?
  {
    Lookup(o.fields, key).GetOr(default)
  }

  /** `get` returns the stored value when the key is present and the default only when it is absent */
  lemma GetSpec(o: Json, key: string, default: Json)
    requires o.JObj?
    ensures HasKey(o, key) ==> Field(key, Get(o, key, default)) in o.fields
    ensures !HasKey(o, key) ==> Get(o, key, default) == default
  {
    LookupSpec(o.fields, key);
  }

  /** `len(v)` for the values that have a length; Python raises TypeError on the others */
  function Len(v: Json): (r: Option<nat>)
    ensures r.Some? <==> v.JStr? || v.JArr? || v.JObj?
    ensures v.JArr? ==> r == Some(|v.items|)
  {
    match v
    case JStr(s) => Some(|s|)
    case JArr(items) => Some(|items|)
    case JObj(fields) => Some(|fields|)
    case _ => None
  }
}
