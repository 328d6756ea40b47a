/** Optional values and results, standing for the `T | null` and throw/return pairs of the source. */
module Wrappers {

  /** `None` is JavaScript's `null` (or `undefined`); `Some(v)` is a present value. */
  datatype Option<+T> = None | Some(value: T) {
    function GetOr(default: T): T {
      match this
      case Some(v) => v
      case None => default
    }
  }

  /** `Failure(e)` is a thrown error, `Success(v)` a returned value. */
  datatype Result<+T, +E> = Success(value: T) | Failure(error: E)
}
