/** Option and Result, the two failure-carrying types the rest of the model uses. */
module Wrappers {

  /** A value that may be absent. */
  datatype Option<T> = None | Some(value: T)

  /** Either a value or the error the Python code would raise instead. */
  datatype Result<T, E> = Ok(value: T) | Err(error: E)
}
