/** Failure-compatible wrappers shared by the converter and the aggregator. */
module Wrappers {

  /** An optional value: a child element `find` may not locate, a text that may be absent. */
  datatype Option<+T> = None | Some(value: T)

  /** The value of a computation that either succeeds or raises an error. */
  datatype Result<+R, +E> = Success(value: R) | Failure(error: E) {

    predicate IsFailure() {
      Failure?
    }

    function PropagateFailure<U>(): Result<U, E>
      requires Failure?
    {
      Failure(error)
    }

    function Extract(): R
      requires Success?
    {
      value
    }
  }
}
