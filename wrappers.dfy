/** Optional values: a channel value that may be absent (Java's Optional / a null Integer). */
module Wrappers {
  datatype Option<+T> = None | Some(value: T) {
    /** Java's `orElse(default)`. */
    function GetOr(default: T): T {
      match this
      case Some(v) => v
      case None => default
    }
  }
}
