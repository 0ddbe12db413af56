/** Option and Result, failure-compatible so that decoders can use `:-`. */
module Wrappers {

  /** A value that may be absent; stands for Rust's `Option<T>`. */
  datatype Option<+T> = None | Some(value: T)

  /** The outcome of a decode: a value, or the error that stopped it. */
  datatype Result<+R, +E> = Success(value: R) | Failure(error: E) {

    predicate IsFailure() {
      Failure?
    }

    function PropagateFailure<U>(): Result<U, E>
      requires Failure?
    {
      Failure(error)
    }

    function Extract(): R
      requires Success?
    {
      value
    }
  }
}
