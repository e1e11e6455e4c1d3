/** Optional values and fallible results, the shapes of Rust's Option and Result. */
module Wrappers {

  datatype Option<+T> = None | Some(value: T)

  datatype Result<+T, +E> = Ok(value: T) | Err(error: E)

  /** The unit value `()` of a `Result<(), E>`. */
  datatype Unit = Unit
}
