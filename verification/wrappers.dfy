/** Optional values and success/failure results, as used by the relay and its callers. */
module Wrappers {

  datatype Option<+T> = None | Some(value: T)

  /** The shape of Rust's `Result<T, E>`. */
  datatype Result<+T, +E> = Ok(value: T) | Err(error: E)
}
