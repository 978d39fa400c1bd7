/** Optional values and success-or-failure results, used where the source has
    `None` or raises an exception. */
module Wrappers {

  /** Python's `None` or a present value. */
  datatype Option<+T> = None | Some(value: T)

  /** The outcome of a call that either returns or raises. */
  datatype Result<+R, +E> = Success(value: R) | Failure(error: E)
}
