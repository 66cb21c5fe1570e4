/** Optional values and results with an error, used across the model. */
module Wrappers {

  /** A value that may be absent: `null` or `undefined` in the component. */
  datatype Option<+T> = None | Some(value: T)

  /** The outcome of a step that can fail. */
  datatype Result<+T, +E> = Ok(value: T) | Err(error: E)
}
