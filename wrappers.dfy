/** Small value wrappers shared by the model. */
module Wrappers {

  /** `undefined` or a value, as JavaScript's optional values are used in the source. */
  datatype Option<+T> = None | Some(value: T)

  /** How a promise settles: it resolves with a value or it rejects (an exception was thrown). */
  datatype Settled<+T> = Resolved(value: T) | Rejected

  /** The sequence holding the value of `o`, or nothing. */
  function ToSeq<T>(o: Option<T>): (s: seq<T>)
    ensures o.None? ==> s == []
    ensures o.Some? ==> s == [o.value]
  {
    match o
    case None => []
    case Some(v) => [v]
  }
}
