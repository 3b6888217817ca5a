/** Option and Result, the two failure-carrying types the source uses
    (Rust's `Option<T>` and `Result<T, &'static str>`), and the `min`/`max`
    helpers the money arithmetic needs. */
module Wrappers {

  datatype Option<+T> = None | Some(value: T)

  datatype Result<+T, +E> = Success(value: T) | Failure(error: E)

  function Min(a: real, b: real): real {
    if a <= b then a else b
  }

  function Max(a: real, b: real): real {
    if a >= b then a else b
  }
}
