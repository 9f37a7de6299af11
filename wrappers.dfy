/** Option and Result: the two ways a Go call in this model reports absence or failure. */
module Wrappers {

  /** A value that may be missing, as a Go nil slice or a missed regular-expression match. */
  datatype Option<T> = None | Some(value: T)

  /** The Go `(value, err)` pair when the value is meaningless on error. */
  datatype Result<T, E> = Ok(value: T) | Err(error: E)
}
