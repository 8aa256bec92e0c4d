/** Optional values and results with an error, shared by the two adapters. */
module Wrappers {

  /** A value that may be absent, such as a dictionary key that is not there. */
  datatype Option<+T> = None | Some(value: T)

  /** The outcome of a step that may raise: its value, or the error it raised. */
  datatype Result<+T, +E> = Ok(value: T) | Err(error: E)
}
