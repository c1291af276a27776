/** Values standing for Java's `null` and for thrown exceptions. */
module Wrappers {

  /** `None` is Java's `null`; `Some(v)` a present reference. */
  datatype Option<+T> = None | Some(value: T)

  /** A computation that either yields a value or fails with an error (a thrown exception). */
  datatype Result<+R, +E> = Success(value: R) | Failure(error: E) {

    predicate IsFailure() {
      Failure?
    }

    function PropagateFailure<U>(): Result<U, E>
      requires Failure?
    {
      Failure(error)
    }

    function Extract(): R
      requires Success?
    {
      value
    }
  }

  /** The outcome of a `void` Java method: it returns normally or throws. */
  datatype Outcome<+E> = Pass | Fail(error: E)
}
