/** Option and Result datatypes shared by the job engine model. */
module Wrappers {
  /** Python's `None` or a present value. */
  datatype Option<+T> = None | Some(value: T)

  /** The outcome of a step that either succeeds or raises. */
  datatype Result<+T, +E> = Ok(value: T) | Err(fault: E)
}
