/** Option and Result: "undefined"/"missing" values and raised exceptions. */
module Wrappers {

  /** A value that may be absent: Python's None, pandas' NaN. */
  datatype Option<+T> = None | Some(value: T)

  /** Either a returned value or a raised exception. */
  datatype Result<+T, +E> = Ok(value: T) | Err(error: E)
}
