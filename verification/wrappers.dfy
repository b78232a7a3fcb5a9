/** The wrappers used across the model: an optional value (a
    JavaScript `undefined`/`null` or a present value), a result that either
    carries a value or an error message, and a pass/fail outcome for guards
    that throw. */
module Wrappers {

  /** A value that may be absent (`undefined` or `null` in the application). */
  datatype Option<+T> = None | Some(value: T) {

    /** The carried value, or `default` when absent (the `??` operator). */
    function GetOr(default: T): T {
      match this
      case Some(v) => v
      case None => default
    }
  }

  /** Either a computed value or the message of the error the application throws. */
  datatype Result<+R, +E> = Success(value: R) | Failure(error: E)

  /** The result of a guard: it returns normally or throws with an error. */
  datatype Outcome<+E> = Pass | Fail(error: E)
}
