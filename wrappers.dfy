/** Failure-compatible wrappers shared by every module of the model. */
module Wrappers {

  /** A value that may be missing: Python's `None`, or an adapter call that raised. */
  datatype Option<+T> = None | Some(value: T)

  /** A value or the error that stopped the computation producing it. */
  datatype Result<+T, +E> = Ok(value: T) | Err(error: E)
}
