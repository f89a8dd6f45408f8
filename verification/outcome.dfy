/** The error values the timers throw, and the Option/Result wrappers used to
    return either a value or the thrown error. */
module Outcome {

  /** The two JavaScript error classes the timers throw. The message is kept
      only for readability; no property depends on it. */
  datatype Error =
    | TypeError(message: string)
    | SyntaxError(message: string)

  /** A call either returns a value or throws an error. */
  datatype Result<+T> = Ok(value: T) | Err(error: Error) {
    predicate IsFailure() {
      Err?
    }

    function PropagateFailure<U>(): Result<U>
      requires Err?
    {
      Err(error)
    }

    function Extract(): T
      requires Ok?
    {
      value
    }
  }

  /** An optional argument or option key: `None` when the key is absent. */
  datatype Option<+T> = None | Some(value: T)
}
