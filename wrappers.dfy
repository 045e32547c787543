/** Optional values and results with an error, shared by the whole model. */
module Wrappers {

  /** A value that may be absent (Ruby's `nil`). */
  datatype Option<+T> = None | Some(value: T)

  /** Either a value or the reason the operation was refused. */
  datatype Result<+T, +E> = Ok(value: T) | Err(error: E)
}
