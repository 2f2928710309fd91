/** Option and Result, the two failure-carrying wrappers the model uses
    for JavaScript's `undefined`/`null` and for thrown errors. */
module Wrappers {

  /** A value that may be absent (`undefined` or `null` in the source). */
  datatype Option<+T> = None | Some(value: T)

  /** The outcome of a call that returns a value or throws. */
  datatype Result<+T, +E> = Ok(value: T) | Err(error: E)
}
