/**
 * JSON-like values as Python holds them after decoding a request body:
 * `None`, `bool`, `int`, `float`, `str`, `list` and `dict` with string keys.
 */
module JsonValue {
  import opened Wrappers

  datatype Json =
    | JNull
    | JBool(b: bool)
    | JInt(i: int)
    | JFloat(r: real)
    | JString(s: string)
    | JArray(items: seq<Json>)
    | JObject(fields: map<string, Json>)

  type Object = map<string, Json>

  /** `d.get(key)`: a missing key reads as `None`, which every caller treats like JSON `null`. */
  function Get(d: Object, key: string): Json {
    if key in d then d[key] else JNull
  }

  /** `j.get(key)` guarded by `isinstance(j, dict)`: anything but a dict yields `None`. */
  function Field(j: Json, key: string): Json {
    if j.JObject? then Get(j.fields, key) else JNull
  }

  /** Python truthiness: `None`, `False`, zero, and empty strings, lists and dicts are falsy. */
  predicate Truthy(j: Json) {
    match j
    case JNull => false
    case JBool(b) => b
    case JInt(i) => i != 0
    case JFloat(r) => r != 0.0
    case JString(s) => s != ""
    case JArray(items) => items != []
    case JObject(fields) => fields != map[]
  }

  /** The value reached by following `path` through nested dicts, if every step exists. */
  function Lookup(j: Json, path: seq<string>): Option<Json>
    decreases |path|
  {
    if path == [] then Some(j)
    else if j.JObject? && path[0] in j.fields then Lookup(j.fields[path[0]], path[1..])
    else None
  }

  function OptionalInt(v: Option<int>): Json {
    match v
    case Some(n) => JInt(n)
    case None => JNull
  }

  function OptionalReal(v: Option<real>): Json {
    match v
    case Some(r) => JFloat(r)
    case None => JNull
  }

  function OptionalString(v: Option<string>): Json {
    match v
    case Some(s) => JString(s)
    case None => JNull
  }
}
