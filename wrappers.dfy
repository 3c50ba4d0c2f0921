/** Failure-compatible wrappers: a missing value and a result that may carry an error. */
module Wrappers {

  /** A value that may be missing (pandas' NaN / an unmatched lookup). */
  datatype Option<+T> = None | Some(value: T)

  /** The outcome of a stage that may abort the whole run. */
  datatype Result<+R, +E> = Success(value: R) | Failure(error: E) {

    predicate IsFailure() {
      Failure?
    }

    function PropagateFailure<U>(): (r: Result<U, E>)
      requires Failure?
    {
      Failure(error)
    }

    function Extract(): (r: R)
      requires Success?
    {
      value
    }
  }
}
