/** The `serde_json::Value` tree that carries the non-standard claims of an
    OpenID token, with the indexing operator `value[key]`. */
module Json {

  import opened Wrappers

  datatype Value =
    | Null
    | Bool(b: bool)
    | Number(n: int)
    | String(s: string)
    | Array(items: seq<Value>)
    | Object(members: map<string, Value>)

  /** `value[key]`: the member of an object, and `Null` for a missing key or
      for any value that is not an object (serde_json never panics here). */
  function Index(v: Value, key: string): (r: Value)
    ensures !v.Object? ==> r == Null
    ensures v.Object? && key !in v.members ==> r == Null
  {
    match v
    case Object(m) => if key in m then m[key] else Null
    case _ => Null
  }

  /** `value[k0][k1]...`: indexing along a path of keys. */
  function Path(v: Value, keys: seq<string>): Value
    decreases |keys|
  {
    if keys == [] then v else Path(Index(v, keys[0]), keys[1..])
  }

  /** `value.as_array()`. */
  function AsArray(v: Value): (r: Option<seq<Value>>)
    ensures r.Some? <==> v.Array?
  {
    match v
    case Array(items) => Some(items)
    case _ => None
  }

  /** `value.as_str()`. */
  function AsStr(v: Value): (r: Option<string>)
    ensures r.Some? <==> v.String?
  {
    match v
    case String(s) => Some(s)
    case _ => None
  }
}
