/** Optional values and error returns, used in place of PHP's null and exceptions. */
module Wrappers {

  /** A value that may be absent (PHP null or an unset array key). */
  datatype Option<+T> = None | Some(value: T)

  /** The outcome of an operation that either returns a value or throws. */
  datatype Result<+T, +E> = Ok(value: T) | Err(error: E)
}
