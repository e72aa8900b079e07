/** Option and Result: the absent value and the error return of the source. */
module Wrappers {

  /** Python's `None` or a value. */
  datatype Option<+T> = None | Some(value: T)

  /** A value, or the exception that the source would raise instead. */
  datatype Result<+T, +E> = Ok(value: T) | Err(error: E)
}
