/** Option and Result values, and the error value Go functions return. */
module Wrappers {

  datatype Option<+T> = None | Some(value: T) {
    function GetOr(default: T): T {
      match this
      case Some(v) => v
      case None => default
    }
  }

  datatype Result<+R, +E> = Success(value: R) | Failure(error: E)

  /** A Go `error`: only its message is observable here. */
  datatype Error = Error(message: string)

  /** A constructor's result passed on: its error unchanged, its value wrapped. */
  function MapValue<T, U, E>(r: Result<T, E>, wrap: T -> U): (s: Result<U, E>)
    ensures r.Failure? ==> s == Failure(r.error)
    ensures r.Success? ==> s == Success(wrap(r.value))
  {
    match r
    case Success(v) => Success(wrap(v))
    case Failure(e) => Failure(e)
  }

  /** The sequence that holds the value of `o`, if any. */
  function OptionToSeq<T>(o: Option<T>): (s: seq<T>)
    ensures |s| == (if o.Some? then 1 else 0)
    ensures o.Some? ==> s[0] == o.value
  {
    match o
    case Some(v) => [v]
    case None => []
  }
}
