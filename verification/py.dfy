/** The Python-level vocabulary every other module speaks: bytes, the
    exceptions the modelled code raises, and a result type standing for
    "returned a value or raised an exception". */
module Py {

  /** One element of a Python `bytes` value. */
  newtype byte = x: int | 0 <= x < 256

  /** The exceptions the modelled code can raise. Messages are kept where the
      code chooses them; `Foreign` stands for anything raised by code outside
      the model (the fetch engine, the ORM, the filesystem, the cipher). */
  datatype Exc =
    | ValueError(msg: string)
    | TypeError(msg: string)
    | KeyError(key: string)
    | AttributeError(msg: string)
    | RuntimeError(msg: string)
    | CancelledError
    | BinasciiError(msg: string)
    | Foreign(what: string)

  datatype Option<+T> = None | Some(value: T)

  /** A Python call either returns a value or raises; usable with `:-`. */
  datatype Result<+T> = Success(value: T) | Failure(exc: Exc) {

    predicate IsFailure() {
      Failure?
    }

    function PropagateFailure<U>(): Result<U>
      requires Failure?
    {
      Failure(exc)
    }

    function Extract(): T
      requires Success?
    {
      value
    }
  }
}
