/** Optional values: Python's `None` versus a present value. */
module Wrappers {
  datatype Option<T> = None | Some(value: T) {
    /** `d.get(key, default)` style lookup of an optional value. */
    function GetOr(default: T): (r: T)
      ensures Some? ==> r == value
      ensures None? ==> r == default
    {
      match this
      case Some(v) => v
      case None => default
    }
  }
}
