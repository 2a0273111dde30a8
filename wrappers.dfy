/** Optional values: JavaScript's `undefined` / `null` alternatives and NaN results. */
module Wrappers {

  datatype Option<+T> = None | Some(value: T) {

    /** `x || d` for a value that is falsy exactly when absent */
    function GetOr(default: T): T {
      match this
      case Some(v) => v
      case None => default
    }
  }
}
