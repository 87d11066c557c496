/** A completed `concurrent.futures.Future`. Only terminal states are
    modelled: a callback or a `wait` only ever sees a finished future, so
    `done()` is always true. */
module Futures {

  import opened Py

  datatype Outcome<+T> = Ok(value: T) | Raised(exc: Exc) | Cancelled {

    /** `fut.cancelled()` */
    predicate IsCancelled() {
      Cancelled?
    }

    /** `fut.exception()`: on a cancelled future the call itself raises
        CancelledError; otherwise it returns the stored exception or `None`. */
    function Exception(): (r: Result<Option<Exc>>)
      ensures r.Failure? <==> Cancelled?
      ensures r.Failure? ==> r.exc == CancelledError
      ensures r.Success? ==> (r.value.Some? <==> Raised?)
      ensures Raised? ==> r == Success(Some(exc))
    {
      match this
      case Ok(_) => Success(None)
      case Raised(e) => Success(Some(e))
      case Cancelled => Failure(CancelledError)
    }

    /** `fut.result()`: the value, or the stored exception re-raised, or
        CancelledError. */
    function Result(): (r: Result<T>)
      ensures r.Success? <==> Ok?
      ensures Ok? ==> r.value == value
      ensures Raised? ==> r == Failure(exc)
      ensures Cancelled? ==> r == Failure(CancelledError)
    {
      match this
      case Ok(v) => Success(v)
      case Raised(e) => Failure(e)
      case Cancelled => Failure(CancelledError)
    }
  }

  /** The future of a task that ran to completion with result `r`. */
  function FromResult<T>(r: Result<T>): (f: Outcome<T>)
    ensures f.Result() == r
    ensures !f.Cancelled?
  {
    match r
    case Success(v) => Ok(v)
    case Failure(e) => Raised(e)
  }
}
