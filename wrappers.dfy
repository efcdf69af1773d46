/** Option and Result, used for PHP's nullable values and thrown exceptions. */
module Wrappers {

  datatype Option<+T> = None | Some(value: T)

  /** `Err` stands for an exception thrown by the modelled PHP code. */
  datatype Result<+T, +E> = Ok(value: T) | Err(error: E)
}
