/** Option and Result, the value-level stand-ins for Rust's `Option` and for a
    fatal `expect` whose failure the model makes visible. */
module Wrappers {

  datatype Option<+T> = None | Some(value: T)

  datatype Result<+R, +E> = Success(value: R) | Failure(error: E)
}
