/** JavaScript-level values the server handles: optional and nullable
    fields, results with an error side, and the parsed JSON request body.
    Numbers are JavaScript doubles, idealised here as exact reals. */
module JsValues {

  /** A field that may be `undefined` (absent key or omitted property). */
  datatype Option<+T> = None | Some(value: T) {
    /** `x ?? fallback` for a field that is never `null`. */
    function OrElse(fallback: T): T {
      match this
      case Some(v) => v
      case None => fallback
    }
  }

  /** A field that may be `undefined`, `null`, or hold a value. */
  datatype Nullish<+T> = Undefined | Null | Present(value: T)

  datatype Result<+T, +E> = Ok(value: T) | Err(error: E)

  /** A JSON value as `express.json()` hands it over. The contents of nested
      arrays and objects never matter to the checks below, so they are opaque. */
  datatype Json = JNum(n: real) | JStr(s: string) | JBool(b: bool) | JNull | JNested

  /** A request body: a JSON object, or anything else (an array, say). */
  datatype Body = Object(fields: map<string, Json>) | NotObject

  /** The value under `key`, or `undefined`. */
  function Lookup(fields: map<string, Json>, key: string): Option<Json> {
    if key in fields then Some(fields[key]) else None
  }
}
