/** Option and Result values, used for JavaScript's `undefined` and for thrown errors. */
module Wrappers {

  datatype Option<+T> = None | Some(value: T)

  /** A computation that either returns a value or throws an error. */
  datatype Result<+T, +E> = Success(value: T) | Failure(error: E)

  /** `a || b` on two optional strings: the first unless it is absent or empty. */
  predicate Filled(a: Option<string>)
  {
    a.Some? && a.value != ""
  }

  function OrElse(a: Option<string>, b: Option<string>): (r: Option<string>)
    ensures Filled(a) ==> r == a
    ensures !Filled(a) ==> r == b
  {
    if Filled(a) then a else b
  }
}
