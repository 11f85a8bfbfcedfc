/** Optional values and results with an error, shared by every module of the model. */
module Wrappers {

  /** A value that may be missing; for a contract read, None stands for a reverted call. */
  datatype Option<+T> = None | Some(value: T)

  /** The outcome of an operation that either yields a value or raises an error. */
  datatype Result<+R, +E> = Success(value: R) | Failure(error: E)
}
