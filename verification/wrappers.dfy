/** Option and Result: JavaScript's `undefined`/`null` and its thrown errors, as values. */
module Wrappers {

  datatype Option<+T> = None | Some(value: T) {
    function GetOr(default: T): T {
      match this
      case Some(v) => v
      case None => default
    }
  }

  /** `Failure` carries the message of the error the source would throw. */
  datatype Result<+R> = Success(value: R) | Failure(error: string)
}
