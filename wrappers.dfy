/** Failure-carrying results shared by every module of the model. */
module Wrappers {

  /** A value that may be absent: Python's `None` or a JavaScript `undefined`. */
  datatype Option<+T> = None | Some(value: T)

  /** The outcome of an operation that the source lets raise an exception. */
  datatype Result<+T, +E> = Ok(value: T) | Err(error: E)
}
