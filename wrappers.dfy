/** Failure-compatible wrappers shared by the whole model. */
module Wrappers {

  /** A value that may be absent (Python's `None`, pandas' `NaN`/`NaT`). */
  datatype Option<+T> = None | Some(value: T)

  /** The outcome of an operation that raises on failure in the original program. */
  datatype Result<+T, +E> = Ok(value: T) | Err(error: E)
}
