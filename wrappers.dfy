/** Option and Result, for values that may be absent and operations that may fail
    (Go's `(value, error)` pairs). */
module Wrappers {

  datatype Option<+T> = None | Some(value: T)

  datatype Result<+T, +E> = Ok(value: T) | Err(error: E)
}
