/** Failure-carrying datatypes shared by the model. */
module Wrappers {

  /** A value that may be absent: Python's `None` or a value. */
  datatype Option<+T> = None | Some(value: T)

  /** The outcome of a call that either returns a value or raises an exception with a message. */
  datatype Result<+R, +E> = Success(value: R) | Failure(error: E)
}
