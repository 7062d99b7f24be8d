/** Failure-carrying results for the operations of the pool and lottery services. */
module Wrappers {

  datatype Option<+T> = None | Some(value: T)

  /** The value of a Go function that returns `(value, error)`. */
  datatype Result<+T, +E> = Ok(value: T) | Err(error: E)
}
