/**
 * JSON values as Python's `json` module hands them to the pipeline. Objects
 * are maps from keys to values: `d[k] = v`, `d.setdefault(k, v)`,
 * `d.get(k, default)` and `{**a, **b}` become map updates and unions.
 */
module Json {

  datatype Value =
    | JNull
    | JBool(b: bool)
    | JNum(n: real)
    | JStr(s: string)
    | JArr(items: seq<Value>)
    | JObj(fields: map<string, Value>)

  /** A JSON object (a Python dict). */
  type Dict = map<string, Value>

  /** `d.get(k, default)`. */
  function Lookup(d: Dict, k: string, default: Value): Value
  {
    if k in d then d[k] else default
  }

  /** The items of a list value, `[]` for anything else. */
  function Items(v: Value): seq<Value>
  {
    if v.JArr? then v.items else []
  }

  /** `d.setdefault(k, v)`: add `k` only when it is absent. */
  function SetDefault(fields: map<string, Value>, k: string, v: Value): map<string, Value>
  {
    if k in fields then fields else fields[k := v]
  }

  /** Python truthiness of a JSON value (`if x:` / `not x`). */
  predicate Truthy(v: Value)
  {
    match v
    case JNull => false
    case JBool(b) => b
    case JNum(n) => n != 0.0
    case JStr(s) => s != []
    case JArr(items) => items != []
    case JObj(fields) => fields != map[]
  }

  /** Values Python can put in a `set` (lists and dicts are unhashable). */
  predicate Hashable(v: Value)
  {
    !v.JArr? && !v.JObj?
  }
}
