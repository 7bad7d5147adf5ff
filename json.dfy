/** The JSON values that travel between the model, the tools and the JSON-RPC endpoint (`serde_json::Value`). */
module Json {
  import opened Wrappers

  datatype Json =
    | Null
    | Bool(b: bool)
    | Number(n: int)
    | Str(s: string)
    | Array(items: seq<Json>)
    | Object(fields: map<string, Json>)

  /** `Value::Object(Default::default())`. */
  const EmptyObject: Json := Object(map[])

  /** `value[key]`: the member of an object, `Null` for a missing key or a non-object. */
  function Get(v: Json, key: string): Json {
    if v.Object? && key in v.fields then v.fields[key] else Null
  }

  /** `value.as_str()`. */
  function AsStr(v: Json): Option<string> {
    if v.Str? then Some(v.s) else None
  }

  /** `args[key].as_str().unwrap_or(default)`: the string member, or the default when it is absent or not a string. */
  function StrArg(args: Json, key: string, default: string): (r: string)
    ensures Get(args, key).Str? ==> r == Get(args, key).s
    ensures !Get(args, key).Str? ==> r == default
  {
    AsStr(Get(args, key)).GetOr(default)
  }
}
