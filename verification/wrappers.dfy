/** Small failure-compatible wrappers used across the model. */
module Wrappers {

  /** A value that may be absent; stands in for JavaScript's `null` / `undefined`. */
  datatype Option<+T> = None | Some(value: T)

  /** Either a normal result or the error that a handler raised instead. */
  datatype Result<+T, +E> = Ok(value: T) | Err(error: E)
}
