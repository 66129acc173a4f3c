/** Optional values and success-or-error results, used for every
    `field?: T`, `T | null` and thrown exception of the payment core. */
module Wrappers {

  datatype Option<+T> = None | Some(value: T)

  /** `Failure(e)` stands for the operation throwing `e`. */
  datatype Result<+T, +E> = Success(value: T) | Failure(error: E)
}
