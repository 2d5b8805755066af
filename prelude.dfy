/** Small value types shared by every module of the model. */
module Prelude {

  /** An optional value: Go's nil-able pointer or "not present" map entry. */
  datatype Option<+T> = None | Some(value: T)

  /** A value or an error: Go's `(T, error)` result pair. */
  datatype Result<+T, +E> = Ok(value: T) | Err(error: E)

  /** One byte of a Go `[]byte`. */
  type Byte = b: int | 0 <= b < 256
}
