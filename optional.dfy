/** A value that may be absent: stands for JavaScript's `null`/`undefined` results. */
module Optional {

  datatype Option<T> = None | Some(value: T)

  /** The present value as a one-element sequence, or the empty sequence. */
  function ToSeq<T>(o: Option<T>): (r: seq<T>)
    ensures |r| <= 1
    ensures o.Some? ==> r == [o.value]
    ensures o.None? <==> r == []
  {
    match o
    case None => []
    case Some(v) => [v]
  }
}
