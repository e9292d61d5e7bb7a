/** Optional values and results that carry either a value or a failure. */
module Wrappers {

  /** A value that may be absent: PHP's `null` for a nullable field or a missing key. */
  datatype Option<+T> = None | Some(value: T)

  /** The outcome of an operation that either returns a value or throws. */
  datatype Result<+T, +E> = Ok(value: T) | Err(error: E)
}
