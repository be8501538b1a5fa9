/**
 * Decoded JSON values, as `json.loads` hands them to the SDK, and the few Python
 * operations the SDK applies to them. An operation that would raise in Python
 * (TypeError, KeyError, IndexError, ValueError) yields `None`.
 */
module JsonValues {
  import opened Wrappers
  import opened Text

  datatype Json =
    | JNull
    | JBool(b: bool)
    | JNum(x: real)
    | JStr(s: string)
    | JArr(items: seq<Json>)
    | JObj(fields: map<string, Json>)

  /** Python's `needle in v` for a string needle: substring, list element or dict key. */
  function In(needle: string, v: Json): Option<bool> {
    match v
    case JStr(s) => Some(Contains(needle, s))
    case JArr(items) => Some(JStr(needle) in items)
    case JObj(fields) => Some(needle in fields)
    case _ => None
  }

  /** Python's `len(v)`. */
  function Len(v: Json): Option<nat> {
    match v
    case JStr(s) => Some(|s|)
    case JArr(items) => Some(|items|)
    case JObj(fields) => Some(|fields|)
    case _ => None
  }

  /** Python's `v[k]` for an integer index; a dict has only string keys, so it raises. */
  function Index(v: Json, k: nat): Option<Json> {
    match v
    case JStr(s) => if k < |s| then Some(JStr([s[k]])) else None
    case JArr(items) => if k < |items| then Some(items[k]) else None
    case _ => None
  }

  /** Python's `fields.get(key, default)`. */
  function Get(fields: map<string, Json>, key: string, default: Json): Json {
    if key in fields then fields[key] else default
  }

  /**
   * Python's `float(v)`. Parsing a string is left to `parseFloat`, which stands for
   * Python's own float syntax (`None` for a ValueError).
   */
  function ToFloat(v: Json, parseFloat: string -> Option<real>): Option<real> {
    match v
    case JNum(x) => Some(x)
    case JBool(b) => Some(if b then 1.0 else 0.0)
    case JStr(s) => parseFloat(s)
    case _ => None
  }
}
