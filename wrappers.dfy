/** Failure-compatible wrappers for the Go convention of returning
    `(value, error)` pairs and a `nil` pointer for "not found". */
module Wrappers {

  datatype Option<+T> = None | Some(value: T)

  datatype Result<+R, +E> = Success(value: R) | Failure(error: E)
}
