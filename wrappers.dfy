/** Option and Result, the two failure-compatible wrappers the model is written with. */
module Wrappers {

  /** An optional value: the worker's `djvuDocument` and `iwiw` slots start out undefined. */
  datatype Option<+T> = None | Some(value: T)

  /** The outcome of a call that either returns a value or throws a failure. */
  datatype Result<+T, +E> = Success(value: T) | Failure(error: E) {

    predicate IsFailure() {
      Failure?
    }

    function PropagateFailure<U>(): Result<U, E>
      requires Failure?
    {
      Failure(error)
    }

    function Extract(): T
      requires Success?
    {
      value
    }
  }
}
