/** Failure-carrying values shared by the other modules. */
module Wrappers {

  /** A value that may be absent (Python's `None`). */
  datatype Option<+T> = None | Some(value: T)

  /** Either a value or the error that the source would raise instead. */
  datatype Result<+T, +E> = Ok(value: T) | Err(error: E)
}
