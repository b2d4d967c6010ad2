/** The two failure-compatible datatypes every other module uses. */
module Wrappers {

  /** A value that may be absent: a missing row, or a nullable column. */
  datatype Option<+T> = None | Some(value: T)

  /** The outcome of a statement, a transaction or a check. */
  datatype Result<+T, +E> = Success(value: T) | Failure(error: E) {
    predicate IsFailure() {
      Failure?
    }

    function PropagateFailure<U>(): Result<U, E>
      requires Failure?
    {
      Failure(error)
    }

    function Extract(): T
      requires Success?
    {
      value
    }
  }
}
