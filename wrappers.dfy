/** Option and Result values, and the Python exception kinds the core raises. */
module Wrappers {

  datatype Option<+T> = None | Some(value: T) {
    function GetOr(default: T): T {
      match this
      case Some(v) => v
      case None => default
    }
  }

  /** The exception classes raised by the modelled code. */
  datatype PyError =
    | ValueError(msg: string)
    | KeyError(key: string)
    | TypeError(msg: string)
    | AttributeError(msg: string)
    | TimeoutError(msg: string)

  /** A computation that either returns a value or raises a Python exception. */
  datatype Result<+T> = Ok(value: T) | Err(error: PyError) {
    predicate IsFailure() {
      Err?
    }

    function PropagateFailure<U>(): Result<U>
      requires Err?
    {
      Err(error)
    }

    function Extract(): T
      requires Ok?
    {
      value
    }
  }
}
