/** Option and Result values, and the exception kinds the modelled Python code raises. */
module Wrappers {

  /** Python's `None` or a present value. */
  datatype Option<+T> = None | Some(value: T) {
    function GetOr(default: T): T {
      match this
      case Some(v) => v
      case None => default
    }
  }

  /** The Python exception classes the strategy engine raises or lets escape. */
  datatype Error =
    | ValueError(msg: string)
    | KeyError(key: string)
    | RuntimeError(msg: string)
    | TypeError(msg: string)
    | AttributeError(msg: string)
    | ImportError(msg: string)
    | IndexError(msg: string)
    | RecursionError
    /** An exception raised inside a foreign library (scipy, pandas), by class name and text. */
    | LibraryError(kind: string, msg: string)

  /** A call that either returns a value or raises. */
  datatype Result<+T> = Ok(value: T) | Err(error: Error) {
    predicate IsFailure() {
      Err?
    }

    function PropagateFailure<U>(): Result<U>
      requires Err?
    {
      Err(error)
    }

    function Extract(): T
      requires Ok?
    {
      value
    }
  }
}
