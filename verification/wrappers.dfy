/** Option and Result values used in place of Python's None and raised exceptions. */
module Wrappers {

  datatype Option<+T> = None | Some(value: T)

  /** A computation that either produced a value or raised an exception carrying a message. */
  datatype Result<+T, +E> = Ok(value: T) | Err(error: E)
}
