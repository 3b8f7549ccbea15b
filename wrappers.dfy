/** Optional values, standing in for JavaScript's `undefined`/`null` fields. */
module Wrappers {
  datatype Option<T> = None | Some(value: T)
  {
    /** `x ?? d`: only a missing value is replaced. */
    function GetOr(d: T): (r: T)
      ensures this.Some? ==> r == value
      ensures this.None? ==> r == d
    {
      match this
      case None => d
      case Some(v) => v
    }
  }
}
