/** Option and Result, shared by every module of the model. */
module Wrappers {

  /** An optional value; `None` stands for Go's nil pointer or zero value. */
  datatype Option<+T> = None | Some(value: T)

  /** A value or an error, standing for Go's `(value, error)` return pair. */
  datatype Result<+T, +E> = Ok(value: T) | Err(error: E)
}
