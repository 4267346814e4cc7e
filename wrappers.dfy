/** Failure-carrying return values: Go's `(value, error)` pairs and bare `error` returns. */
module Wrappers {

  datatype Option<+T> = None | Some(value: T)

  /** A value or the error that replaced it (Go's `(T, error)`). */
  datatype Result<+T, +E> = Success(value: T) | Failure(error: E)

  /** An error return with no value (Go's bare `error`; `Pass` is `nil`). */
  datatype Outcome<+E> = Pass | Fail(error: E)
}
