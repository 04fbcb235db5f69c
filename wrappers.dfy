/** Error-or-value carriers used for Go's `(T, error)` and `error` returns. */
module Wrappers {

  /** A value that may be absent (a Go `error` that may be nil carries its message in Some). */
  datatype Option<+T> = None | Some(value: T)

  /** Either a value or an error: Go's `(T, error)` pair with exactly one of the two meaningful. */
  datatype Result<+R, +E> = Success(value: R) | Failure(error: E)

  /** Success without a value, or an error: a Go function returning only `error`. */
  datatype Outcome<+E> = Pass | Fail(error: E)
}
