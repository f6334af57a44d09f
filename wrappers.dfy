/**
 * Optional values: `None` stands for Python's `None` and for a pandas NaN cell.
 * Results: a value, or the exception a script stops with.
 */
module Wrappers {

  datatype Option<+T> = None | Some(value: T) {

    /** The wrapped value, or `default` when there is none (pandas `fillna`). */
    function GetOr(default: T): T
    {
      match this
      case Some(v) => v
      case None => default
    }
  }

  /** The outcome of a step that may raise: `Failure` carries the exception's kind. */
  datatype Result<+T> = Success(value: T) | Failure(error: string)
}
