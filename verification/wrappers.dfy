/** Option and Result, the two failure-carrying shapes used throughout the model. */
module Wrappers {

  /** `None` stands for a `null` reference returned by a binder. */
  datatype Option<+T> = None | Some(value: T)

  /** `Err` stands for an exception thrown by the source. */
  datatype Result<+T, +E> = Ok(value: T) | Err(error: E)
}
