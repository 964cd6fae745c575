/** Option and Result, used for a pin's configured fault and for the outcome of a write. */
module Wrappers {

  datatype Option<+T> = None | Some(value: T)

  /** The shape of Rust's `Result<T, E>`: the display's `set` returns `Result<(), E>`. */
  datatype Result<+T, +E> = Ok(value: T) | Err(error: E)
}
