/** Failure-compatible wrappers used for the Python exceptions the model makes explicit. */
module Wrappers {

  datatype Option<+T> = None | Some(value: T)

  /** Either a value or the exception that replaced it. */
  datatype Result<+T, +E> = Success(value: T) | Failure(error: E) {
    predicate IsFailure() { Failure? }

    function PropagateFailure<U>(): Result<U, E>
      requires Failure?
    {
      Failure(error)
    }

    function Extract(): T
      requires Success?
    {
      value
    }
  }

  /** Completion of an operation that returns nothing: it ran through or it raised. */
  datatype Outcome<+E> = Pass | Fail(error: E)
}
