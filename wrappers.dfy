/** Optional values and outcomes that may fail, as used throughout the model. */
module Wrappers {

  /** A value that may be absent (`null` or `undefined` in the original program). */
  datatype Option<+T> = None | Some(value: T)

  /** A value, or the message of the `Error` that was thrown instead. */
  datatype Result<+T, +E> = Ok(value: T) | Err(error: E)
}
