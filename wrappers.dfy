/** Optional values (JavaScript's `undefined`/`null`, Python's `None`), results of operations that may throw, and JavaScript's `||` fallbacks. */
module Wrappers {

  datatype Option<+T> = None | Some(value: T) {

    /** The value, or `default` when there is none (JavaScript `??`). */
    function GetOr(default: T): T {
      match this
      case Some(v) => v
      case None => default
    }
  }

  /** The outcome of an operation that may throw: a value or the error message. */
  datatype Result<+T> = Success(value: T) | Failure(error: string)

  /** JavaScript `s || fallback` on an optional string: empty and missing both fall back. */
  function StringOr(s: Option<string>, fallback: string): (r: string)
    ensures s.Some? && s.value != "" ==> r == s.value
    ensures s.None? || s.value == "" ==> r == fallback
  {
    if s.Some? && s.value != "" then s.value else fallback
  }

  /** JavaScript `n || fallback` on an optional number: 0 and missing both fall back. */
  function NumberOr(n: Option<int>, fallback: int): (r: int)
    ensures n.Some? && n.value != 0 ==> r == n.value
    ensures n.None? || n.value == 0 ==> r == fallback
  {
    if n.Some? && n.value != 0 then n.value else fallback
  }

  /** A key of a JavaScript object: missing, or holding `undefined`, `null` or a value. */
  datatype Slot<+T> = Absent | Undefined | Null | Val(v: T)

  /** A JavaScript value of dynamic type, as held by a `Record<string, any>`. */
  datatype JsValue =
    | JUndefined
    | JNull
    | JBool(b: bool)
    | JNum(n: real)
    | JStr(s: string)
    | JArr(items: seq<JsValue>)
    | JObj(fields: map<string, JsValue>)

  /** JavaScript truthiness (NaN is not modelled). */
  predicate Truthy(v: JsValue) {
    match v
    case JUndefined => false
    case JNull => false
    case JBool(b) => b
    case JNum(n) => n != 0.0
    case JStr(s) => s != ""
    case _ => true
  }
}
