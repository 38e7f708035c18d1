/** Failure-compatible result types used for the driver's "not ready" exceptions. */
module Wrappers {

  /** Some value, or nothing (a search that reached the end). */
  datatype Option<+T> = None | Some(value: T)

  /** A value, or the error the C++ code would have thrown instead. */
  datatype Result<+T, +E> = Success(value: T) | Failure(error: E) {
    predicate IsFailure() {
      Failure?
    }

    function PropagateFailure<U>(): Result<U, E>
      requires Failure?
    {
      Failure(error)
    }

    function Extract(): T
      requires Success?
    {
      value
    }
  }
}
