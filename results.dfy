/** The Python exceptions the modelled drivers raise, and the result types that
    carry them in place of an exception. */
module Results {

  /** The exception classes the core raises or lets escape. */
  datatype Error =
    | ValueError
    | TypeError
    | AttributeError
    | IndexError
    | KeyError
    | ZeroDivisionError
    | OverflowError
    | BuggyHardware

  /** A value, or the exception raised instead of returning it. */
  datatype Result<+T> = Ok(value: T) | Err(error: Error) {
    predicate IsFailure() { Err? }

    function PropagateFailure<U>(): Result<U>
      requires Err?
    {
      Err(error)
    }

    function Extract(): T
      requires Ok?
    {
      value
    }
  }

  /** No value, or the exception raised. */
  datatype Outcome = Pass | Fail(error: Error) {
    predicate IsFailure() { Fail? }

    function PropagateFailure(): Outcome
      requires Fail?
    {
      this
    }
  }

  datatype Option<+T> = None | Some(value: T)
}
