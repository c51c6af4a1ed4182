/** Failure-compatible wrappers used throughout the model: C#'s `null` becomes
    `Option`, a thrown exception becomes the failure side of `Result` or `Outcome`. */
module Wrappers {

  /** A value that may be absent (a C# reference that may be `null`). */
  datatype Option<+T> = None | Some(value: T)

  /** A computation that yields a value or fails with an error. */
  datatype Result<+R, +E> = Success(value: R) | Failure(error: E) {

    predicate IsFailure() {
      Failure?
    }

    function PropagateFailure<U>(): Result<U, E>
      requires Failure?
    {
      Failure(error)
    }

    function Extract(): R
      requires Success?
    {
      value
    }
  }

  /** A computation that either completes with nothing to return or fails
      (a C# `Task` that completes or faults). */
  datatype Outcome<+E> = Pass | Fail(error: E)
}
