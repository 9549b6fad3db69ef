/** Optional and failure-carrying values shared by every module. */
module Wrappers {

  /** A value that may be absent (a missing marker, a field that is not there). */
  datatype Option<+T> = None | Some(value: T) {
    function GetOr(default: T): T {
      match this
      case Some(v) => v
      case None => default
    }
  }

  /** The outcome of a call that may throw: the thrown error is kept as its message. */
  datatype Result<+T> = Success(value: T) | Failure(error: string)
}
