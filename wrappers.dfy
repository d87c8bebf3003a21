/** Option and Result, the shapes of JavaScript's `null`/`undefined` and of a rejected promise. */
module Wrappers {

  /** A value that may be missing: JavaScript's `undefined` or `null`. */
  datatype Option<+T> = None | Some(value: T)

  /** The outcome of an asynchronous call that either resolves or rejects. */
  datatype Result<+T, +E> = Ok(value: T) | Err(error: E)
}
