/** Optional values: a key that may be absent from a decoded message. */
module Wrappers {

  datatype Option<T> = None | Some(value: T) {

    /** The value, or `default` when absent (the `dict.get(key, default)` lookup). */
    function GetOr(default: T): T {
      match this
      case Some(v) => v
      case None => default
    }
  }
}
