/** Failure-carrying wrappers shared by the modules of the model. */
module Wrappers {

  /** A value that may be absent (Python's `None`). */
  datatype Option<+T> = None | Some(value: T)

  /** The outcome of an operation that raises instead of returning. */
  datatype Result<+T, +E> = Ok(value: T) | Err(error: E)
}
