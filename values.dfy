/** Values shared by every part of the model: optional and fallible results, and the
    JSON-compatible values that travel in message parameters, tool results and route plans. */
module Values {

  datatype Option<+T> = None | Some(value: T)

  /** A computation that either returns a value or raises; `error` is the text of the raised exception. */
  datatype Result<+T, +E> = Ok(value: T) | Err(error: E)

  /** A JSON-compatible Python value (None, bool, int, float, str, list, dict). A float is
      its exact real value; `nan` and the infinities are not among them. */
  datatype Json =
    | JNull
    | JBool(b: bool)
    | JNum(n: int)
    | JFloat(x: real)
    | JStr(s: string)
    | JArr(items: seq<Json>)
    | JObj(fields: map<string, Json>)

  /** Python truthiness: `bool(v)`. */
  predicate Truthy(v: Json)
  {
    match v
    case JNull => false
    case JBool(b) => b
    case JNum(n) => n != 0
    case JFloat(x) => x != 0.0
    case JStr(s) => s != ""
    case JArr(xs) => xs != []
    case JObj(m) => m != map[]
  }

  /** The name Python reports for the type of a value, as in `type(v).__name__`. */
  function TypeName(v: Json): (r: string)
    ensures r != ""
  {
    match v
    case JNull => "NoneType"
    case JBool(_) => "bool"
    case JNum(_) => "int"
    case JFloat(_) => "float"
    case JStr(_) => "str"
    case JArr(_) => "list"
    case JObj(_) => "dict"
  }

  /** `d.get(key, default)` on a dictionary. */
  function Get(d: map<string, Json>, key: string, default: Json): (r: Json)
    ensures key in d ==> r == d[key]
    ensures key !in d ==> r == default
  {
    if key in d then d[key] else default
  }
}
