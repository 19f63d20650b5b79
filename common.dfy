/** Value types shared by both elevation clients. */
module Common {

  /** A value that may be absent: a JSON key that may be missing, a cell that may have failed. */
  datatype Option<+T> = None | Some(value: T)

  /** The outcome of an operation that may raise. */
  datatype Result<+T, +E> = Success(value: T) | Failure(error: E)

  /** What a client operation returns, together with the requests it sent to the
      remote service, in the order it sent them. */
  datatype Traced<+T, +E, +Q> = Traced(result: Result<T, E>, sent: seq<Q>)

  /** A failed lookup becomes `None`, a successful one its value. */
  function ToOption<T, E>(r: Result<T, E>): (o: Option<T>)
    ensures o.None? <==> r.Failure?
    ensures o.Some? ==> o.value == r.value
  {
    match r
    case Success(v) => Some(v)
    case Failure(_) => None
  }
}
