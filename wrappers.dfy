/** Option and Result values used for the source's `T | null`, `field?: T`
    and for operations that either return a value or throw. */
module Wrappers {

  datatype Option<+T> = None | Some(value: T) {
    function GetOr(default: T): T {
      match this
      case Some(v) => v
      case None => default
    }
  }

  /** The outcome of an awaited call that resolves with a value or rejects
      with an error message. */
  datatype Result<+T> = Success(value: T) | Failure(error: string)

  /** The outcome of an awaited call that resolves with nothing or rejects. */
  datatype Outcome = Pass | Fail(error: string)
}
