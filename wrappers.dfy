/** Option and Result: the nullable fields and the thrown errors of the calculator. */
module Wrappers {

  /** A value that may be absent; stands for TypeScript's `T | null` (and `T | undefined`). */
  datatype Option<+T> = None | Some(value: T) {

    /** The value, or `default` when absent. */
    function GetOr(default: T): T {
      match this
      case Some(v) => v
      case None => default
    }
  }

  /** The outcome of an entry point that may throw: a value, or the thrown error's message. */
  datatype Result<+R, +E> = Success(value: R) | Failure(error: E)

  /** The elements of an `Option`, as a sequence of length at most one. */
  function ToSeq<T>(o: Option<T>): (s: seq<T>)
    ensures |s| <= 1
    ensures o.Some? ==> s == [o.value]
    ensures o.None? ==> s == []
  {
    match o
    case Some(v) => [v]
    case None => []
  }
}
