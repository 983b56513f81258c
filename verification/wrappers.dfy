/** Optional values and results of calls that may throw. */
module Wrappers {

  /** `None` stands for JavaScript's `null` / `undefined`. */
  datatype Option<+T> = None | Some(value: T)

  /** The value of a call, or the error it throws. */
  datatype Result<+T, +E> = Success(value: T) | Failure(error: E)
}
