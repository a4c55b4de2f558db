/** A value that may be missing: JavaScript's `undefined` where the source reads past an array. */
module Wrappers {

  datatype Option<+T> = None | Some(value: T)

  /** The launched events of one step, as a list of zero or one element. */
  function ToSeq<T>(o: Option<T>): (s: seq<T>)
    ensures |s| <= 1
    ensures o.Some? <==> |s| == 1
    ensures o.Some? ==> s[0] == o.value
  {
    match o
    case None => []
    case Some(v) => [v]
  }
}
