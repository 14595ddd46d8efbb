// Option and Result: the two error-carrying shapes the stream code uses.
module Outcomes {

  datatype Option<+T> = None | Some(value: T)

  datatype Result<+R, +E> = Ok(value: R) | Err(error: E)

  /** The unit value carried by `Ok(())`. */
  datatype Unit = Unit
}
