/** Optional values: the `undefined` that a missing argument, a failed
    `Array.prototype.find` or a failed decompression gives in the source. */
module Wrappers {

  datatype Option<+T> = None | Some(value: T) {

    /** The value, or `default` when there is none. */
    function GetOr(default: T): T {
      match this
      case Some(v) => v
      case None => default
    }
  }
}
