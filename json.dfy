/** The part of `serde_json::Value` the code inspects. Numbers are integers
    only; objects are maps from key to value. */
module Json {
  import opened Wrappers

  datatype Json =
    | JNull
    | JBool(b: bool)
    | JNumber(n: int)
    | JString(s: string)
    | JArray(items: seq<Json>)
    | JObject(fields: map<string, Json>)

  const I64_MIN := -0x8000_0000_0000_0000
  const I64_MAX := 0x7FFF_FFFF_FFFF_FFFF

  /** `Value::get(key)` with a string key: the field of an object, None for anything else. */
  function Get(v: Json, key: string): (r: Option<Json>)
    ensures r.Some? <==> v.JObject? && key in v.fields
    ensures r.Some? ==> r.value == v.fields[key]
  {
    if v.JObject? && key in v.fields then Some(v.fields[key]) else None
  }

  /** `Value::as_str`. */
  function AsStr(v: Json): Option<string> {
    if v.JString? then Some(v.s) else None
  }

  /** `Value::as_i64`: an integer that fits in 64-bit signed arithmetic. */
  function AsI64(v: Json): (r: Option<int>)
    ensures r.Some? ==> I64_MIN <= r.value <= I64_MAX
  {
    if v.JNumber? && I64_MIN <= v.n <= I64_MAX then Some(v.n) else None
  }

  /** `Value::as_bool`. */
  function AsBool(v: Json): Option<bool> {
    if v.JBool? then Some(v.b) else None
  }

  /** Following `path` key by key from `v`; None as soon as a key is missing. */
  function Lookup(v: Json, path: seq<string>): Option<Json> {
    if path == [] then Some(v)
    else match Get(v, path[0])
      case None => None
      case Some(child) => Lookup(child, path[1..])
  }

  /** Walking a path in two legs is walking it at once. */
  lemma {:induction false} LookupAppend(v: Json, p: seq<string>, q: seq<string>)
    ensures Lookup(v, p + q) == match Lookup(v, p) case None => None case Some(w) => Lookup(w, q)
  {
    if p != [] {
      assert (p + q)[0] == p[0] && (p + q)[1..] == p[1..] + q;
      match Get(v, p[0])
      case None =>
      case Some(child) => LookupAppend(child, p[1..], q);
    } else {
      assert p + q == q;
    }
  }

  /** A path that leaves the objects early finds nothing, however it continues. */
  lemma {:induction false} LookupThroughScalar(v: Json, path: seq<string>)
    requires !v.JObject? && path != []
    ensures Lookup(v, path).None?
  {
  }
}
