/** Optional values and success/failure results, standing for JavaScript's
    `undefined` and for exceptions thrown by getters. */
module Wrappers {

  /** `None` stands for an absent (falsy) value. */
  datatype Option<+T> = None | Some(value: T)

  /** The outcome of an operation that may throw. */
  datatype Result<+T, +E> = Success(value: T) | Failure(error: E)
}
