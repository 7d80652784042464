/** Failure-compatible wrappers: Python's `None` and the exceptions the benchmark
    code can raise are modelled as values, so that every error path is part of a
    member's result rather than excluded by a precondition. */
module Outcomes {

  datatype Option<+T> = None | Some(value: T) {

    predicate IsFailure() {
      None?
    }

    function PropagateFailure<U>(): Option<U>
      requires None?
    {
      None
    }

    function Extract(): T
      requires Some?
    {
      value
    }
  }

  /** The Python exception classes that the modelled code raises. */
  datatype Exception =
    | TypeError
    | IndexError
    | KeyError
    | ValueError
    | AttributeError
    | ZeroDivisionError
    | NotImplementedError

  datatype Result<+T> = Ok(value: T) | Err(error: Exception) {

    predicate IsFailure() {
      Err?
    }

    function PropagateFailure<U>(): Result<U>
      requires Err?
    {
      Err(error)
    }

    function Extract(): T
      requires Ok?
    {
      value
    }
  }
}
