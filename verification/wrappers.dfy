/** Optional values, and the JavaScript notion of a "truthy" string that the
    build hooks rely on when they write `x || fallback` or `!x`. */
module Wrappers {

  /** A GraphQL field that may be `null`, or an object key that may be missing. */
  datatype Option<+T> = None | Some(value: T)

  /** A string-valued field is truthy in JavaScript when it is present and
      not the empty string. */
  predicate Truthy(o: Option<string>) {
    o.Some? && o.value != ""
  }

  /** `o || fallback` for a string-valued field: the field itself when it is
      truthy, the fallback otherwise. */
  function OrElse(o: Option<string>, fallback: string): (r: string)
    ensures Truthy(o) ==> r == o.value
    ensures !Truthy(o) ==> r == fallback
  {
    match o
    case Some(s) => if s != "" then s else fallback
    case None => fallback
  }
}
