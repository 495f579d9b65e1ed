/** The shape of a `serde_json::Value` as the worker reads and builds it:
    objects are maps from keys to values, indexing a missing key or a
    non-object gives `Null`, and `as_str`/`as_array` succeed only on the
    matching variant. */
module JsonValue {
  import opened Wrappers

  datatype Json =
    | Null
    | Bool(b: bool)
    | Num(n: int)
    | Str(s: string)
    | Arr(items: seq<Json>)
    | Obj(fields: map<string, Json>)

  /** `v[key]` for reading. */
  function Get(v: Json, key: string): Json {
    if v.Obj? && key in v.fields then v.fields[key] else Null
  }

  /** `v[key] = x` on an object (a `Null` becomes an object first). */
  function Set(v: Json, key: string, x: Json): (r: Json)
    requires v.Obj? || v.Null?
    ensures r.Obj? && key in r.fields && Get(r, key) == x
    ensures v.Obj? ==> r.fields == v.fields[key := x]
  {
    if v.Obj? then Obj(v.fields[key := x]) else Obj(map[key := x])
  }

  function AsStr(v: Json): Option<string> {
    if v.Str? then Some(v.s) else None
  }

  function AsBool(v: Json): Option<bool> {
    if v.Bool? then Some(v.b) else None
  }

  function AsArray(v: Json): Option<seq<Json>> {
    if v.Arr? then Some(v.items) else None
  }
}
