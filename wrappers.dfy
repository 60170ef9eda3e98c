/** Failure-carrying results used wherever the source throws, returns null or
    rejects a promise. */
module Wrappers {

  datatype Option<+T> = None | Some(value: T) {
    function GetOr(default: T): T {
      match this
      case Some(v) => v
      case None => default
    }
  }

  /** The outcome of an awaited call: a value or the message of the thrown error. */
  datatype Result<+T> = Success(value: T) | Failure(error: string)
}
