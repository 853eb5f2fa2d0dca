/** Option and Result, the two Rust sum types the runner threads its outcomes through. */
module Wrappers {

  datatype Option<+T> = None | Some(value: T)

  datatype Result<+T, +E> = Ok(value: T) | Err(error: E)
}
