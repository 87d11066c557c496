/** The Python values the pipeline stores in job metadata and passes
    between stages: decoded JSON documents and dictionaries. */
module Values {

  import opened Py

  /** A decoded JSON value (floating-point numbers are not modelled). */
  datatype Json =
    | JNull
    | JBool(b: bool)
    | JInt(i: int)
    | JStr(s: string)
    | JArr(items: seq<Json>)
    | JObj(fields: map<string, Json>)

  /** A Python `dict` with string keys. */
  type Object = map<string, Json>

  /** Python truthiness: `None`, `False`, `0`, `''`, `[]` and `{}` are false. */
  predicate Truthy(j: Json) {
    match j
    case JNull => false
    case JBool(b) => b
    case JInt(i) => i != 0
    case JStr(s) => s != ""
    case JArr(items) => items != []
    case JObj(fields) => fields != map[]
  }

  /** `d.get(key)`: `None` when the key is absent. */
  function Get(d: Object, key: string): Json {
    if key in d then d[key] else JNull
  }

  /** `d.get(key, {})` where the caller goes on to call `.get` on the
      result: anything but a dict there raises AttributeError. */
  function GetDict(d: Object, key: string): (r: Result<Object>)
    ensures key !in d ==> r == Success(map[])
    ensures key in d ==> (r.Success? <==> d[key].JObj?)
    ensures r.Success? && key in d ==> r.value == d[key].fields
  {
    if key !in d then Success(map[])
    else match d[key]
      case JObj(f) => Success(f)
      case _ => Failure(AttributeError("object has no attribute 'get'"))
  }

  /** The one-key dict `{key: value}`. */
  function Single(key: string, value: Json): Object {
    map[key := value]
  }
}
