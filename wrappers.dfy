/** Go's nil and (value, error) returns as values. */
module Wrappers {

  /** A value that may be absent: Go's nil pointer, nil map or nil error. */
  datatype Option<+T> = None | Some(value: T)

  /** The outcome of a Go call returning (value, error): exactly one of the two is meaningful. */
  datatype Result<+T, +E> = Success(value: T) | Failure(error: E)
}
