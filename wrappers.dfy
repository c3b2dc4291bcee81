/** Failure-carrying result types shared by the modules of this model. */
module Wrappers {

  /** A value that may be absent (a null handle, a missing map entry, a failed parse). */
  datatype Option<+T> = None | Some(value: T)

  /** A value or an error, for Go's `(value, error)` returns and JavaScript's thrown errors. */
  datatype Result<+T, +E> = Ok(value: T) | Err(error: E)

  /** Success without a value, or an error: Go's `error` return of a validator. */
  datatype Outcome<+E> = Pass | Fail(error: E)

  function Min(a: int, b: int): (r: int)
    ensures r <= a && r <= b && (r == a || r == b)
  {
    if a <= b then a else b
  }

  function Max(a: int, b: int): (r: int)
    ensures a <= r && b <= r && (r == a || r == b)
  {
    if a <= b then b else a
  }
}
