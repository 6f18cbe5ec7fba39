/** Optional values and the two-armed result that the geocoder's completions carry. */
module Wrappers {

  /** Swift's `T?`: a value that may be absent. */
  datatype Option<+T> = None | Some(value: T) {

    /** Swift's `x ?? d` with a plain default. */
    function GetOr(default: T): (r: T)
      ensures Some? ==> r == value
      ensures None? ==> r == default
    {
      match this
      case Some(v) => v
      case None => default
    }

    /** Swift's `x ?? y` where `y` is itself optional: the first present value. */
    function OrElse(other: Option<T>): (r: Option<T>)
      ensures r.None? <==> None? && other.None?
      ensures Some? ==> r == this
      ensures None? ==> r == other
    {
      match this
      case Some(_) => this
      case None => other
    }
  }

  /** Swift's `Result<Success, Failure>`. */
  datatype Result<+R, +E> = Success(value: R) | Failure(error: E)

  /** Swift's `Array.first`: the head of a sequence, absent when it is empty. */
  function First<T>(s: seq<T>): (r: Option<T>)
    ensures r.None? <==> |s| == 0
    ensures r.Some? ==> r.value == s[0]
  {
    if |s| == 0 then None else Some(s[0])
  }
}
