/** Optional values and results with an error, as the client returns them. */
module Wrappers {

  /** A value that may be absent: Go's nil pointer or nil interface. */
  datatype Option<+T> = None | Some(value: T)

  /** Either a value or an error: Go's (value, error) pair in which exactly one is nil. */
  datatype Result<+T, +E> = Ok(value: T) | Err(error: E)
}
