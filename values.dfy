/** Python values as the gateway sees them: JSON-decoded data, Python's
    truthiness, and the wrappers the model uses for `None` and for the
    exceptions the gateway code raises. */
module PyValues {

  /** Python's `None` (None) or a present value (Some). */
  datatype Option<+T> = None | Some(value: T)

  /** The exceptions the modelled code raises. */
  datatype Error =
    | NoGetAttribute                         // `.get` on a truthy value that is not a dict (AttributeError)
    | NoLowerAttribute                       // `.lower()` on a model name that is not a string (AttributeError)
    | BodyNotJson                            // a 200 response whose body `r.json()` cannot decode
    | HttpError(status: int, detail: string) // fastapi's HTTPException(status_code, detail)

  /** The outcome of a Python call: a returned value or a raised exception. */
  datatype Result<+T> = Ok(value: T) | Err(error: Error)

  /** A JSON-decoded Python value. Objects are keyed by string; their key
      order only matters to `str(data)`, which the model takes as a parameter. */
  datatype Json =
    | JNull
    | JBool(b: bool)
    | JInt(i: int)
    | JFloat(r: real)
    | JStr(s: string)
    | JArr(items: seq<Json>)
    | JObj(fields: map<string, Json>)

  /** Python's `bool(v)`. */
  predicate Truthy(v: Json) {
    match v
    case JNull => false
    case JBool(b) => b
    case JInt(i) => i != 0
    case JFloat(r) => r != 0.0
    case JStr(s) => s != ""
    case JArr(items) => items != []
    case JObj(fields) => fields != map[]
  }

  /** `isinstance(v, int)`: in Python a bool is an int too. */
  predicate IsPyInt(v: Json) {
    v.JInt? || v.JBool?
  }

  /** `d.get(key)`: the value under `key`, or None when the key is absent. */
  function Get(d: map<string, Json>, key: string): Json {
    if key in d then d[key] else JNull
  }

  /** `(v or {})` used as a dict: a falsy value becomes `{}`, a dict stays
      itself, and any other truthy value has no `.get`, so the `.get` that
      follows raises AttributeError. */
  function OrEmptyDict(v: Json): (r: Result<map<string, Json>>)
    ensures r.Err? <==> Truthy(v) && !v.JObj?
    ensures r.Ok? ==> r.value == if v.JObj? then v.fields else map[]
  {
    if v.JObj? then Ok(v.fields)
    else if Truthy(v) then Err(NoGetAttribute)
    else Ok(map[])
  }
}
