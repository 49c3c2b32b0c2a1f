/**
 * Decoded JSON values as the handler sees them (Python dicts, lists, strings,
 * numbers, booleans and None), with the two pieces of Python semantics the
 * handler relies on: truthiness (`detail or {}`) and
 * hashability (`event_name in {...}` raises TypeError on a list or a dict).
 */
module Json {

  datatype Option<+T> = None | Some(value: T)

  /** A decoded JSON value; `JNull` is Python's `None`. */
  datatype Value =
    | JNull
    | JBool(b: bool)
    | JNum(n: int)
    | JStr(s: string)
    | JArr(items: seq<Value>)
    | JObj(fields: map<string, Value>)

  /** Python truthiness: None, False, 0, "", [] and {} are false, everything else true. */
  predicate Truthy(v: Value)
  {
    match v
    case JNull => false
    case JBool(b) => b
    case JNum(n) => n != 0
    case JStr(s) => s != ""
    case JArr(items) => items != []
    case JObj(fields) => fields != map[]
  }

  /** Lists and dicts are unhashable in Python; scalars and strings are hashable. */
  predicate Hashable(v: Value)
  {
    !v.JArr? && !v.JObj?
  }

  /** `d.get(key)`: the value under `key`, or None when the key is absent. */
  function Get(d: map<string, Value>, key: string): Value
  {
    if key in d then d[key] else JNull
  }
}
