/** Optional values and fallible results, the model's stand-ins for Python's
    `None` and for exceptions. */
module Wrappers {

  /** A value that may be absent: a missing key, an unset attribute or `None`. */
  datatype Option<+T> = None | Some(value: T) {
    function GetOr(default: T): T {
      match this
      case Some(v) => v
      case None => default
    }
  }

  /** The outcome of a call that may raise: `Failure` carries `str(e)`. */
  datatype Result<+R> = Success(value: R) | Failure(error: string)
}
