/** Failure-compatible return values: the model's stand-in for JavaScript exceptions. */
module Wrappers {

  datatype Option<+T> = None | Some(value: T)

  /** A call either returns a value or throws an error; `:-` propagates the error. */
  datatype Result<+T, +E> = Success(value: T) | Failure(error: E) {

    predicate IsFailure() {
      Failure?
    }

    function PropagateFailure<U>(): Result<U, E>
      requires Failure?
    {
      Failure(error)
    }

    function Extract(): T
      requires Success?
    {
      value
    }
  }
}
