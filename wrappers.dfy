/** Option and Result, the two failure-carrying datatypes the model uses. */
module Wrappers {

  /** A value that may be absent (JavaScript's `undefined`, a missing element, NaN). */
  datatype Option<+T> = None | Some(value: T)

  /** The outcome of a step that may throw: `Err` carries the thrown error's message. */
  datatype Result<+T, +E> = Ok(value: T) | Err(error: E)
}
