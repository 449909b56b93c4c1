/** Failure-carrying results used for the source's exceptions. */
module Wrappers {

  datatype Option<+T> = None | Some(value: T)

  /** `Failure(e)` stands for an exception of kind `e` thrown by the source. */
  datatype Result<+R, +E> = Success(value: R) | Failure(error: E)
}
