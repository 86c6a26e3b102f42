/** Option and Result: the model's stand-ins for Go's nil-able values and (value, error) pairs. */
module Wrappers {

  /** A value that may be absent (a nil interface in the source). */
  datatype Option<+T> = None | Some(value: T)

  /** A Go `(T, error)` pair: `Err` carries the text of the error, `Ok` the value. */
  datatype Result<+T> = Ok(value: T) | Err(message: string)
}
