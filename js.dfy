/** JavaScript value conventions the source relies on: optional values and
    the `||` fallback on strings (an empty string is falsy). */
module Js {

  /** A property that may be missing (`undefined` or `null`). */
  datatype Option<+T> = None | Some(value: T) {
    function GetOr(fallback: T): T {
      match this
      case Some(v) => v
      case None => fallback
    }
  }

  /** A property whose absent form matters: `undefined` and `null` compare
      differently under `!== null`. */
  datatype Nullable<+T> = Undefined | Null | Defined(value: T)

  /** `v || fallback` for a string-valued `v`: missing and empty both fall
      back, so a non-empty fallback never yields an empty string (which `??`
      would let through). */
  function Or(v: Option<string>, fallback: string): (r: string)
    ensures r == fallback || (v.Some? && r == v.value)
    ensures fallback != "" ==> r != ""
  {
    if v.Some? && v.value != "" then v.value else fallback
  }

  /** `x !== null` in JavaScript: only `null` itself is excluded. */
  predicate NotStrictlyNull<T>(x: Nullable<T>) {
    !x.Null?
  }
}
