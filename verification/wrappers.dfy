/** The two result types shared by every component of the model. */
module Wrappers {

  datatype Option<+T> = None | Some(value: T)

  /** A value, or the reason why the operation refused its input. */
  datatype Result<+T, +E> = Ok(value: T) | Err(error: E)
}
