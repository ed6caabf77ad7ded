/** Optional values: the result of a search that may find nothing, and the
    contents of a storage slot that may hold nothing. */
module Wrappers {

  datatype Option<+T> = None | Some(value: T) {

    /** What the slot holds, or the fallback when it holds nothing. */
    function GetOr(default: T): (r: T)
      ensures Some? ==> r == value
      ensures None? ==> r == default
    {
      match this
      case Some(v) => v
      case None => default
    }
  }
}
