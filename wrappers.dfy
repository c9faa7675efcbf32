/** Optional values, standing in for JavaScript's `undefined`/`null` results of
    remote queries and for absent object keys. */
module Wrappers {

  datatype Option<+T> = None | Some(value: T) {

    /** `x ?? d` for a value that is either present or absent. */
    function GetOr(default: T): T {
      match this
      case Some(v) => v
      case None => default
    }
  }
}
