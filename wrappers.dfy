/** Optional values and results with an error, used throughout the model for
    JavaScript's `null`/`undefined` and for calls that may throw. */
module Wrappers {

  datatype Option<+T> = None | Some(value: T) {
    /** The value, or `default` when there is none (`x ?? default`). */
    function GetOr(default: T): T {
      match this
      case Some(v) => v
      case None => default
    }
  }

  /** The outcome of a call into a collaborator that may throw. */
  datatype Result<+T, +E> = Ok(value: T) | Err(error: E)
}
