/** Failure-compatible wrappers used across the model: Kotlin's nullable values become `Option`,
    a `require`/`requireNotNull` that throws `IllegalArgumentException` becomes a `Failure` or `Fail`
    carrying the exception's message. */
module Wrappers {

  /** A nullable value. */
  datatype Option<+T> = None | Some(value: T) {

    /** Kotlin's elvis operator `this ?: other`. */
    function OrElse(other: Option<T>): Option<T>
    {
      match this
      case Some(_) => this
      case None => other
    }
  }

  /** Either a value or the message of the exception that would have been thrown. */
  datatype Result<+R, +E> = Success(value: R) | Failure(error: E)

  /** A check that either passes or fails with a message; carries no value. */
  datatype Outcome<+E> = Pass | Fail(error: E)
}
