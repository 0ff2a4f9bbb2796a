/** Failure-compatible wrappers shared by every module of the model. */
module Wrappers {

  /** An attribute or dictionary value that may be absent (Python's `None`). */
  datatype Option<+T> = None | Some(value: T) {
    /** The value, or `default` when absent (Python's `getattr(obj, name, default)`). */
    function GetOr(default: T): T {
      if Some? then value else default
    }
  }

  /** The exceptions the modelled code raises, named after the Python exception. */
  datatype Error =
    | AttributeError(attribute: string)  // an object lacks an attribute that is read
    | ZeroDivisionError                  // a division whose divisor is zero
    | KeyError(key: string)              // a registry lookup with a key that is not listed
    | TypeError(operand: string)         // an ordering comparison with None

  /** A computation that either returns a value or raises. */
  datatype Result<+T> = Ok(value: T) | Err(error: Error) {
    predicate IsFailure() {
      Err?
    }

    function PropagateFailure<U>(): Result<U>
      requires Err?
    {
      Err(error)
    }

    function Extract(): T
      requires Ok?
    {
      value
    }
  }
}
