/** Option and Result, and the Python exceptions the two filters can raise. */
module Outcomes {

  datatype Option<+T> = None | Some(value: T) {
    /** `value` when present, `default` otherwise (Python's `d.get(k, default)`). */
    function GetOr(default: T): T {
      match this
      case Some(v) => v
      case None => default
    }
  }

  /** The class of the exception a step raises; KeyError carries the missing key. */
  datatype Error =
    | KeyError(key: string)
    | IndexError
    | TypeError
    | AttributeError
    | ValueError

  /** The value a step returns, or the exception it raises. */
  datatype Result<+T> = Ok(value: T) | Err(error: Error) {
    predicate IsFailure() {
      Err?
    }

    function PropagateFailure<U>(): Result<U>
      requires Err?
    {
      Err(error)
    }

    function Extract(): T
      requires Ok?
    {
      value
    }
  }

  /** A step that returns nothing but may raise. */
  datatype Outcome = Pass | Fail(error: Error)
}
