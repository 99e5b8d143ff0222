/** Optional values: the model's reading of TypeScript's `T | undefined`. */
module Wrappers {

  datatype Option<+T> = None | Some(value: T) {

    /** The wrapped value, or `default` when absent (TypeScript's `x ?? default`). */
    function GetOr(default: T): T {
      match this
      case Some(v) => v
      case None => default
    }

    /** The wrapped value as a sequence of length at most one. */
    function ToSeq(): (r: seq<T>)
      ensures |r| <= 1 && (Some? <==> |r| == 1) && (Some? ==> r[0] == value)
    {
      match this
      case Some(v) => [v]
      case None => []
    }
  }
}
