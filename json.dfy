/** JSON values as the client sees them after decoding a response body, and the
    result type that stands for "returned a value" or "raised an exception". */
module Json {

  /** A decoded JSON value. Python's `None`, `bool`, `int`, `str`, `list` and
      `dict` are the six cases; floating-point numbers are not modelled. */
  datatype Json =
    | JNull
    | JBool(b: bool)
    | JNum(n: int)
    | JStr(s: string)
    | JArr(items: seq<Json>)
    | JObj(fields: map<string, Json>)

  datatype Option<+T> = None | Some(value: T)

  /** `Failure(msg)` stands for an exception `e` with `str(e) == msg`. */
  datatype Result<+T> = Success(value: T) | Failure(error: string)

  /** `d.get(key, default)` on a Python dict. */
  function Get(fields: map<string, Json>, key: string, default: Json): Json
  {
    if key in fields then fields[key] else default
  }

  /** The name Python gives the type of a decoded value in its error messages. */
  function TypeName(j: Json): string
  {
    match j
    case JNull => "NoneType"
    case JBool(_) => "bool"
    case JNum(_) => "int"
    case JStr(_) => "str"
    case JArr(_) => "list"
    case JObj(_) => "dict"
  }

  /** The message of the `AttributeError` raised by `x.get(...)` when `x` is not a dict. */
  function NoGetMessage(j: Json): string
  {
    "'" + TypeName(j) + "' object has no attribute 'get'"
  }
}
