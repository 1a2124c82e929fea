/** Failure-carrying result types shared by the codecs. */
module Wrappers {

  datatype Option<+T> = None | Some(value: T)

  /** The outcome of a check that either passes or fails with an error (Go's `error`, nil on success). */
  datatype Outcome<+E> = Pass | Fail(error: E)

  /** A value or an error (Go's `(T, error)` pair, where the value is nil on every error path). */
  datatype Result<+T, +E> = Success(value: T) | Failure(error: E)
}
