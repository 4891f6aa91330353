/** Option and Result datatypes used across the model. */
module Wrappers {

  /** A Go value that may be absent: `None` stands for a nil slice. */
  datatype Option<+T> = None | Some(value: T)

  /** A Go `(value, error)` pair where exactly one half is meaningful. */
  datatype Result<+T> = Ok(value: T) | Err(message: string)
}
