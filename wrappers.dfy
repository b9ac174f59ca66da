/** Option and Result, used for JavaScript's `undefined` and for settled promises. */
module Wrappers {

  /** `None` stands for a value that is absent (JavaScript's `undefined`). */
  datatype Option<+T> = None | Some(value: T)

  /** A value, or the error it was rejected with. */
  datatype Result<+T, +E> = Success(value: T) | Failure(error: E)
}
