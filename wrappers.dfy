/** Option and Result values shared by the modules of this model. */
module Wrappers {

  datatype Option<+T> = None | Some(value: T)

  /** The outcome of a fallible operation: a value, or the error the source returns. */
  datatype Result<+T, +E> = Ok(value: T) | Err(error: E)
}
