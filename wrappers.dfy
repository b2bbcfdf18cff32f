/** Optional values: JavaScript's `undefined`/`null`/`?` fields and `Map.get` misses. */
module Wrappers {
  datatype Option<+T> = None | Some(value: T) {
    function GetOr(default: T): T {
      match this
      case Some(v) => v
      case None => default
    }
  }
}
