/** A value that may be absent: JavaScript's `undefined`, or a call that found nothing. */
module Wrappers {
  datatype Option<+T> = None | Some(value: T)

  /** The value, if any, as a sequence of at most one element. */
  function OptionToSeq<T>(o: Option<T>): (s: seq<T>)
    ensures |s| <= 1
    ensures o.None? ==> s == []
    ensures o.Some? ==> s == [o.value]
  {
    if o.Some? then [o.value] else []
  }
}
