/** Failure-compatible results. Every exception the modelled Python code can
    raise is named by an `Error`, so that a failing step yields `Err` instead of
    being ruled out by a precondition. */
module Wrappers {

  datatype Option<+T> = None | Some(value: T)

  /** The Python exception a failing step raises. */
  datatype Error =
    | KeyError(key: string)         // a dict lookup on a missing key
    | ValueError                    // `max` of an empty list
    | IndexError                    // `[-1]` of an empty list
    | TypeError                     // subscripting `None`
    | AttributeError(name: string)  // `.data` of a property the file does not define
    | AssertionError                // a failed `assert` in a configuration check

  datatype Result<+T> = Ok(value: T) | Err(error: Error) {
    predicate IsFailure() {
      Err?
    }

    function PropagateFailure<U>(): Result<U>
      requires Err?
    {
      Err(error)
    }

    function Extract(): T
      requires Ok?
    {
      value
    }
  }
}
