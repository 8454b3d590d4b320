/** Go's `(value, ok)` and `(value, error)` returns as failure-carrying values. */
module Wrappers {

  datatype Option<+T> = None | Some(value: T)

  datatype Result<+T, +E> = Ok(value: T) | Err(error: E)
}
