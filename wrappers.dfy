/** Failure-carrying return values used across the model: an `Option` for
    Go's `(value, ok)` pairs and a `Result` for Go's `(value, error)` pairs
    and Python's raised exceptions. */
module Wrappers {

  datatype Option<+T> = None | Some(value: T)

  datatype Result<+T, +E> = Success(value: T) | Failure(error: E)
}
