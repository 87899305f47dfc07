/** Failure-compatible wrappers shared by the whole model.

    Every handler of the message controller wraps its body in a broad
    `except Exception` that re-raises a single HTTP 400 carrying the inner
    error text, so one error constructor with a message is enough. */
module Wrappers {

  /** A lookup that may find nothing (`.first()` returning None). */
  datatype Option<+T> = None | Some(value: T)

  /** The outcome of a handler: a value, or the 400 error with its text. */
  datatype Result<+T> = Ok(value: T) | Err(msg: string) {

    predicate IsFailure() {
      Err?
    }

    function PropagateFailure<U>(): Result<U>
      requires Err?
    {
      Err(msg)
    }

    function Extract(): T
      requires Ok?
    {
      value
    }
  }
}
