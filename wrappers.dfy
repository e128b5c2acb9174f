/** Option, Result and Outcome values shared by the model. */
module Wrappers {

  /** A Python value that may be `None`. */
  datatype Option<+T> = None | Some(value: T)

  /** A call that either returns a value or raises an exception. */
  datatype Result<+T, +E> = Ok(value: T) | Err(error: E)

  /** A call that returns nothing useful, or raises an exception. */
  datatype Outcome<+E> = Pass | Fail(error: E)
}
