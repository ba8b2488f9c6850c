/** Option and Result, and the Python exceptions the modelled code raises. */
module Wrappers {

  datatype Option<+T> = None | Some(value: T)

  /** A value or the exception that a Python call would have raised instead. */
  datatype Result<+T> = Ok(value: T) | Err(error: Error)
  {
    predicate IsFailure() { Err? }

    function PropagateFailure<U>(): Result<U>
      requires Err?
    {
      Err(error)
    }

    function Extract(): T
      requires Ok?
    {
      value
    }
  }

  /** The exception classes raised by the modelled code, with their message where it matters. */
  datatype Error =
    | ValueError(message: string)
    | TypeError(message: string)
    | AttributeError(message: string)
    | IndexError
    | KeyError(key: string)
    | FileNotFound(path: string)
    | SameFileError
    | AssertionError(message: string)
    | ValidationError(field: string)
    | ImportFailure(moduleName: string)
    | AgentFailure(message: string)
}
