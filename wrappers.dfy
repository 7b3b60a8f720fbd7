/** Option, Result and Outcome: the model's stand-ins for JavaScript's
    `undefined`/`null`, thrown exceptions and "no value, maybe an error". */
module Wrappers {

  datatype Option<+T> = None | Some(value: T) {
    /** `x ?? d` for an optional value. */
    function GetOr(default: T): T {
      match this
      case Some(v) => v
      case None => default
    }
  }

  /** A computation either returns a value or throws an error. */
  datatype Result<+T, +E> = Success(value: T) | Failure(error: E) {
    predicate IsFailure() {
      Failure?
    }

    function PropagateFailure<U>(): Result<U, E>
      requires Failure?
    {
      Failure(error)
    }

    function Extract(): T
      requires Success?
    {
      value
    }
  }

  /** A statement either completes or throws an error. */
  datatype Outcome<+E> = Pass | Fail(error: E)
}
