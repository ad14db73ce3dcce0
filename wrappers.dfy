/** Option and Result: absent values (`null`/`undefined`) and error returns (thrown exceptions). */
module Wrappers {
  datatype Option<+T> = None | Some(value: T)

  datatype Result<+R, +E> = Ok(value: R) | Err(error: E)
}
