/** Optional values and results, the shapes the service uses for `null` and for thrown values. */
module Wrappers {

  /** `None` stands for JavaScript's `null` / `undefined`. */
  datatype Option<+T> = None | Some(value: T)

  /** A computation that produced a value or threw. */
  datatype Result<+R, +E> = Success(value: R) | Failure(error: E)
}
