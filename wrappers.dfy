// Option and Result types shared by every module of the model.
module Wrappers {

  /** An optional value: a missing request argument, an absent filter. */
  datatype Option<+T> = None | Some(value: T)

  /** A computation that either succeeds with a value or fails with an error. */
  datatype Result<+T, +E> = Ok(value: T) | Err(error: E)
}
