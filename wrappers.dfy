/** The optional value used wherever the Go code has a nil pointer or an empty result. */
module Wrappers {

  datatype Option<+T> = None | Some(value: T)

  /** The zero-or-one element sequence an optional value contributes to an output stream. */
  function ToSeq<T>(o: Option<T>): (s: seq<T>)
    ensures |s| <= 1
    ensures o.Some? <==> |s| == 1
    ensures o.Some? ==> s[0] == o.value
  {
    match o
    case None => []
    case Some(v) => [v]
  }
}
