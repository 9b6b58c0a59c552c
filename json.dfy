/** Option and Result, for values that may be absent and operations that may fail. */
module Wrappers {
  datatype Option<+T> = None | Some(value: T)

  datatype Result<+T, +E> = Success(value: T) | Failure(error: E)
}

/**
 * The JSON-like values that request bodies and stored documents are made of.
 * A request body or a stored document is a `Doc`: a mapping from string keys
 * to values.
 */
module Json {
  datatype Value =
    | Null                             // Python None
    | Int(i: int)
    | Str(s: string)
    | Obj(fields: map<string, Value>)  // a nested dict

  type Doc = map<string, Value>

  /** Python truthiness: `not v` is false exactly for these values. */
  predicate Truthy(v: Value) {
    match v
    case Null => false
    case Int(i) => i != 0
    case Str(s) => s != ""
    case Obj(f) => f != map[]
  }

  /** `m.get(k)`: the value under `k`, or None when `k` is absent. */
  function Get(m: Doc, k: string): Value {
    if k in m then m[k] else Null
  }
}
