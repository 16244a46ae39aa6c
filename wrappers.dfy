/** Optional values and fallible results, as the Swift code uses `T?` and `throws`. */
module Wrappers {

  datatype Option<+T> = None | Some(value: T) {
    /** Swift's `x ?? default`. */
    function GetOr(default: T): T {
      match this
      case Some(v) => v
      case None => default
    }
  }

  /** The outcome of a call that may throw: the value, or the error's description. */
  datatype Result<+T> = Ok(value: T) | Err(message: string)

  /** The outcome of a throwing call that returns nothing. */
  datatype Outcome = Pass | Fail(message: string)
}
