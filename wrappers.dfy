/** Optional values and results that carry either a value or an error.
    Both are failure-compatible, so `:-` can propagate an error. */
module Wrappers {

  /** A value that may be absent; stands for a Go nil interface, func or pointer. */
  datatype Option<+T> = None | Some(value: T)

  /** Either a value or an error: the Go pair `(value, err)` where exactly one is set. */
  datatype Result<+R, +E> = Success(value: R) | Failure(error: E) {

    predicate IsFailure() {
      Failure?
    }

    function PropagateFailure<U>(): Result<U, E>
      requires Failure?
    {
      Failure(error)
    }

    function Extract(): R
      requires Success?
    {
      value
    }
  }
}
