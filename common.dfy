/** Failure-compatible wrappers shared by every module of the model. */
module Common {

  /** Python's `None` versus a present value. */
  datatype Option<+T> = None | Some(value: T)

  /** A value, or the exception the operation raises instead. */
  datatype Result<+T, +E> = Ok(value: T) | Err(error: E)
}
