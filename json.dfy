/** Decoded JSON values as the library sees them after `json.loads`,
    and the shape checks shared by api.py and auth.py. */
module Json {
  import opened Errors

  /** A decoded JSON document. Floating-point numbers are not modelled. */
  datatype Json =
    | JNull
    | JBool(b: bool)
    | JInt(i: int)
    | JStr(s: string)
    | JList(items: seq<Json>)
    | JObj(fields: map<string, Json>)

  type Obj = map<string, Json>

  /** `mapping.get(key)`: a missing key reads as None, like an explicit null. */
  function Get(m: Obj, key: string): Json {
    if key in m then m[key] else JNull
  }

  /** Python truthiness of a decoded JSON value. */
  predicate Truthy(j: Json) {
    match j
    case JNull => false
    case JBool(b) => b
    case JInt(i) => i != 0
    case JStr(s) => s != ""
    case JList(xs) => xs != []
    case JObj(m) => m != map[]
  }

  /** `_ensure_mapping`: api.py raises ParseError, auth.py AuthError; the
      error is therefore a parameter. */
  function EnsureMapping(data: Json, err: Error): (r: Result<Obj>)
    ensures r.Ok? <==> data.JObj?
    ensures r.Ok? ==> JObj(r.value) == data
    ensures r.Err? ==> r.error == err
  {
    if data.JObj? then Ok(data.fields) else Err(err)
  }

  /** `_ensure_list`, with the error as a parameter for the same reason. */
  function EnsureList(data: Json, err: Error): (r: Result<seq<Json>>)
    ensures r.Ok? <==> data.JList?
    ensures r.Ok? ==> JList(r.value) == data
    ensures r.Err? ==> r.error == err
  {
    if data.JList? then Ok(data.items) else Err(err)
  }

  /** A response body as text: empty, not JSON, or the document it decodes to. */
  datatype Body = EmptyBody | InvalidJson | Decoded(doc: Json)

  /** `async_json`: an empty body decodes to None, text that is not JSON
      raises the caller's error. */
  function AsyncJson(body: Body, onError: Error): (r: Result<Json>)
    ensures body.EmptyBody? ==> r == Ok(JNull)
    ensures r.Err? <==> body.InvalidJson?
    ensures r.Err? ==> r.error == onError
    ensures body.Decoded? ==> r == Ok(body.doc)
  {
    match body
    case EmptyBody => Ok(JNull)
    case InvalidJson => Err(onError)
    case Decoded(doc) => Ok(doc)
  }
}
