/** Optional values (JavaScript's `undefined`/`null` beside a value) and results
    (a value, or the error a function throws). */
module Wrappers {
  datatype Option<+T> = None | Some(value: T)

  datatype Result<+T, +E> = Success(value: T) | Failure(error: E)
}
