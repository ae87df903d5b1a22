/** Optional values and results with an error, as used throughout the model. */
module Wrappers {

  /** Ruby's `nil` or a present value. */
  datatype Option<+T> = None | Some(value: T)

  /** A computation that either returns a value or raises an error carrying `error`. */
  datatype Result<+T, +E> = Ok(value: T) | Err(error: E)
}
