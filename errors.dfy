/** Failure-compatible wrappers for the Python exceptions the modelled code can raise. */
module Errors {

  /** The exception classes the modelled Python code raises on bad input. */
  datatype PyError = ValueError | IndexError | TypeError | KeyError | FileNotFoundError

  datatype Option<+T> = None | Some(value: T)

  /** Either a value or the exception that aborted the computation. */
  datatype Result<+T> = Ok(value: T) | Err(error: PyError) {
    predicate IsFailure() { Err? }

    function PropagateFailure<U>(): Result<U>
      requires Err?
    {
      Err(error)
    }

    function Extract(): T
      requires Ok?
    {
      value
    }
  }
}
