/** Optional values and the outcome of a call that may raise. */
module Wrappers {

  datatype Option<+T> = None | Some(value: T) {
    function GetOr(default: T): T {
      match this
      case Some(v) => v
      case None => default
    }
  }

  /** The outcome of a foreign call: its value, or the text `str(e)` of the exception it raised. */
  datatype Result<+T> = Success(value: T) | Failure(error: string)
}
