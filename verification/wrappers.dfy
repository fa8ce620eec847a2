/** Optional values and results with an error channel, used throughout the client model. */
module Wrappers {

  /** A value that may be absent (Python's `None`, where a field may be unset). */
  datatype Option<+T> = None | Some(value: T)

  /** The outcome of an operation: a value, or the error the operation raised. */
  datatype Result<+T, +E> = Ok(value: T) | Err(error: E)
}
