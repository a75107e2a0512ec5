/** Small failure-carrying datatypes shared by the model. */
module Wrappers {

  /** An optional value: the PHP `null` versus a present value. */
  datatype Option<+T> = None | Some(value: T)

  /** The outcome of an operation that may throw. */
  datatype Result<+T, +E> = Ok(value: T) | Err(error: E)
}
