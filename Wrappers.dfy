/** Optional values and results of operations that may raise. */
module Wrappers {

  /** A value that may be absent (a dictionary key that is left out, not set to null). */
  datatype Option<+T> = None | Some(value: T)

  /** The outcome of a Python function that either returns a value or raises an exception. */
  datatype Result<+T, +E> = Ok(value: T) | Err(error: E)
}
