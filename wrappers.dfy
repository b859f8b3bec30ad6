/** Optional values and fallible results, shared by every module of the model. */
module Wrappers {

  /** A value that may be absent: JavaScript's `null`, Python's `None`. */
  datatype Option<+T> = None | Some(value: T)

  /** The outcome of an operation that can throw. */
  datatype Result<+R, +E> = Success(value: R) | Failure(error: E)
}
