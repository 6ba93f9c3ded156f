/** Optional values and success/failure results, as used throughout the model. */
module Wrappers {

  /** A value that may be absent (a JSON field that is `undefined`, a failed request). */
  datatype Option<+T> = None | Some(value: T)

  /** The outcome of a step that either produces a value or throws. */
  datatype Result<+R, +E> = Success(value: R) | Failure(error: E)
}
