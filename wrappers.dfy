/** Failure-carrying result types shared by every module of the gateway model. */
module Wrappers {

  /** A value that may be absent (Go's `nil` pointer or a missing map entry). */
  datatype Option<+T> = None | Some(value: T)

  /** A value or an error (Go's `(T, error)` return pair). */
  datatype Result<+T, +E> = Success(value: T) | Failure(error: E)
}
