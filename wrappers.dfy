/** The optional value used across the model (Swift's `Optional`). */
module Wrappers {

  datatype Option<+T> = None | Some(value: T) {

    /** Swift's `x ?? default`. */
    function GetOr(default: T): T {
      match this
      case Some(v) => v
      case None => default
    }
  }

  /** A value, or the error that a debug-build assertion of the source reports instead. */
  datatype Result<+T, +E> = Success(value: T) | Failure(error: E)

  /** Swift's `Optional.array` (ConstraintBuilder.swift): no element for `nil`, one for a value. */
  function ToSeq<T>(o: Option<T>): (r: seq<T>)
    ensures |r| <= 1
    ensures o.None? <==> r == []
    ensures o.Some? ==> r == [o.value]
  {
    match o
    case None => []
    case Some(v) => [v]
  }
}
