/** Option and Result, the two shapes every fallible operation of the model returns. */
module Wrappers {

  datatype Option<+T> = None | Some(value: T)

  /** `Err` carries a backend error or a validation reason; it is never used for "not found". */
  datatype Result<+T, +E> = Ok(value: T) | Err(error: E)
}
