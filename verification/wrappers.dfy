/** Failure-aware return types shared by the operation merger modules. */
module Wrappers {

  /** An optional value: `None` stands for Python's `None` where a record is absent. */
  datatype Option<+T> = None | Some(value: T)

  /** The outcome of a computation that may raise: the value, or the error raised. */
  datatype Result<+T, +E> = Success(value: T) | Failure(error: E) {

    predicate IsFailure() {
      Failure?
    }

    function PropagateFailure<U>(): Result<U, E>
      requires Failure?
    {
      Failure(error)
    }

    function Extract(): T
      requires Success?
    {
      value
    }
  }
}
