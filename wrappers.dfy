/** Option and Result, the two failure-carrying datatypes the rest of the model uses. */
module Wrappers {

  /** A value that may be absent: JavaScript's `null`/`undefined` versus an object. */
  datatype Option<+T> = None | Some(value: T)

  /** The outcome of a Node-style callback: `cb(null, value)` or `cb(err)`. */
  datatype Result<+R, +E> = Success(value: R) | Failure(error: E)
}
