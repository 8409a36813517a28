/** Option and Result, shaped after Rust's `Option` and `Result`. */
module Wrappers {

  datatype Option<+T> = None | Some(value: T)

  datatype Result<+T, +E> = Ok(value: T) | Err(error: E)

  /** Rust's `()`: the value an `Ok(())` carries. */
  datatype Unit = Unit
}
