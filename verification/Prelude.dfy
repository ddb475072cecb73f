/** The option and result shapes shared by every module. */
module Prelude {

  datatype Option<+T> = None | Some(value: T)

  /** A Go `(value, error)` pair of which exactly one half is meaningful. */
  datatype Result<+T, +E> = Ok(value: T) | Err(error: E)

  function Min(a: int, b: int): int {
    if a <= b then a else b
  }

  function Max(a: int, b: int): int {
    if a >= b then a else b
  }
}
