/** Failure-compatible wrappers shared by the model: `Option` stands for a
    reference that may be null, `Result` for a call that either returns a
    value or throws. */
module Wrappers {

  /** A possibly-null reference: `None` is C#'s `null`. */
  datatype Option<+T> = None | Some(value: T)

  /** The outcome of a call that may throw: `Failure` carries the exception. */
  datatype Result<+T, +E> = Success(value: T) | Failure(error: E) {

    predicate IsFailure() {
      Failure?
    }

    function PropagateFailure<U>(): Result<U, E>
      requires Failure?
    {
      Failure(error)
    }

    function Extract(): T
      requires Success?
    {
      value
    }
  }
}
