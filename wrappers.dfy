/** Option and Result values shared by the modules of this model. */
module Wrappers {

  datatype Option<+T> = None | Some(value: T)

  /** A computation that either yields a value or fails with an error kind. */
  datatype Result<+T, +E> = Ok(value: T) | Err(error: E)
}
