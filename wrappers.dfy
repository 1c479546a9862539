/** Option and Result values shared by every component of the model. */
module Wrappers {
  datatype Option<T> = None | Some(value: T)

  /** An operation that either produces a value or fails with an error the source
      signals by throwing an exception or returning an error code. */
  datatype Result<T, E> = Ok(value: T) | Err(error: E)
}
