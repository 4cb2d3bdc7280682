/** Small failure-carrying datatypes shared by the device models. */
module Wrappers {

  /** A value that may be absent; Python's `None` in the device code. */
  datatype Option<+T> = None | Some(value: T)

  /** The outcome of an operation that can raise instead of returning. */
  datatype Result<+T, +E> = Ok(value: T) | Err(error: E)
}
