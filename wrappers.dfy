/** Optional values and success-or-error results, shared by every module. */
module Wrappers {

  /** A value that may be absent: a missing localStorage key, an optional record field, a failed `find`. */
  datatype Option<+T> = None | Some(value: T)

  /** The outcome of an operation that either succeeds with a value or is refused with an error. */
  datatype Result<+R, +E> = Ok(value: R) | Err(error: E)
}
