/** Option, Result and Outcome: Java's null / Optional, a value-or-exception, and a void-or-exception. */
module Wrappers {

  /** A nullable Java reference or a java.util.Optional. */
  datatype Option<+T> = None | Some(value: T) {

    /** Optional.orElse */
    function GetOr(default: T): T {
      match this
      case Some(v) => v
      case None => default
    }

    /** Optional.or: this value when present, otherwise the alternative. */
    function Or(other: Option<T>): Option<T> {
      if Some? then this else other
    }
  }

  /** The value a Java method returns, or the exception it throws. */
  datatype Result<+T, +E> = Success(value: T) | Failure(error: E)

  /** A void Java method: it returns normally or throws. */
  datatype Outcome<+E> = Pass | Fail(error: E)
}
