/** Optional values, results and the Python exception kinds the model distinguishes. */
module Wrappers {

  datatype Option<+T> = None | Some(value: T) {
    predicate IsFailure() {
      None?
    }

    function PropagateFailure<U>(): Option<U>
      requires None?
    {
      None
    }

    function Extract(): T
      requires Some?
    {
      value
    }

    function GetOr(default: T): T {
      match this
      case Some(v) => v
      case None => default
    }
  }

  /** The exception classes whose distinction matters to a caller of the modelled code. */
  datatype PyError =
    | ValueError
    | TypeError
    | AttributeError
    | ZeroDivisionError
    | UnboundLocalError
    | AssertionError
    | ConnectionError
    | TimeoutError
    | QueueEmpty
    | StopIteration
    | Exception

  /** The outcome of a Python call: a returned value or a raised exception. */
  datatype Result<+T> = Ok(value: T) | Err(error: PyError) {
    predicate IsFailure() {
      Err?
    }

    function PropagateFailure<U>(): Result<U>
      requires Err?
    {
      Err(error)
    }

    function Extract(): T
      requires Ok?
    {
      value
    }
  }
}
