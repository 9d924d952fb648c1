/** Optional values and Python-style success/exception results. */
module Wrappers {

  datatype Option<+T> = None | Some(value: T) {
    function GetOr(default: T): T {
      match this
      case Some(v) => v
      case None => default
    }
  }

  /** A value, or the message of the exception that was raised instead. */
  datatype Result<+T> = Success(value: T) | Failure(error: string)
}
