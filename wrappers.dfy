/** Option, Result and Outcome: the failure values that stand for Python's exceptions. */
module Wrappers {

  datatype Option<+T> = None | Some(value: T)

  datatype Result<+T, +E> = Success(value: T) | Failure(error: E) {
    predicate IsFailure() { Failure? }

    function PropagateFailure<U>(): Result<U, E>
      requires Failure?
    {
      Failure(error)
    }

    function Extract(): T
      requires Success?
    {
      value
    }
  }

  /** What a Python call that returns nothing or raises comes to. */
  datatype Outcome<+E> = Pass | Fail(error: E)
}
