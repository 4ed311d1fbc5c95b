/** Failure-compatible wrappers used throughout the model: an `Option` for a
    value that may be absent (a missing JSON key, a missing file), a
    `Result` for an operation that either returns or raises, and Python's
    truth test on strings. */
module Wrappers {

  datatype Option<+T> = None | Some(value: T)

  datatype Result<+T, +E> = Success(value: T) | Failure(error: E) {

    predicate IsFailure() {
      Failure?
    }

    function PropagateFailure<U>(): Result<U, E>
      requires Failure?
    {
      Failure(error)
    }

    function Extract(): T
      requires Success?
    {
      value
    }
  }

  /** Python's truth test on a string: only the empty string is false. */
  predicate Truthy(s: string) {
    |s| > 0
  }
}
