/** Optional values and results with an error message, as used throughout the model. */
module Wrappers {

  datatype Option<+T> = None | Some(value: T) {
    /** The value, or `default` when absent (JavaScript's `x || default` on a possibly-missing value). */
    function GetOr(default: T): T {
      match this
      case Some(v) => v
      case None => default
    }
  }

  /** A computation that either returns a value or throws an `Error` whose message is `error`. */
  datatype Result<+T> = Ok(value: T) | Err(error: string)
}
