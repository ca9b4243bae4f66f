/** Failure-carrying values shared by every module of the model. */
module Wrappers {

  datatype Option<+T> = None | Some(value: T)

  /** A call that either returns a value or raises the error it carries. */
  datatype Result<+R, +E> = Success(value: R) | Failure(error: E)
}
