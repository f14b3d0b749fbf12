/** Optional values and rewrite outcomes (`FailureOr` and `LogicalResult` of the source). */
module Wrappers {

  datatype Option<+T> = None | Some(value: T) {

    function GetOr(default: T): T {
      match this
      case Some(v) => v
      case None => default
    }
  }

  /**
   * A rewrite that produced a value, or the reason it does not apply (the
   * message a pattern hands to `notifyMatchFailure`, or "" for a bare
   * `failure()`).
   */
  datatype Outcome<+T> = Success(value: T) | Failure(reason: string)
}
