/** Option and Result, used where the source returns null or throws. */
module Wrappers {

  datatype Option<+T> = None | Some(value: T)

  datatype Result<+T, +E> = Ok(value: T) | Err(error: E)

  /** Success, or failure with an error and no value. */
  datatype Outcome<+E> = Pass | Fail(error: E)
}
