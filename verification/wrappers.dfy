/** Failure-compatible wrappers shared by every module of the model.

    - Option<T> stands for a JavaScript value that may be `undefined` or `null`.
    - Result<T> stands for an awaited call that either resolves with a value
      or rejects (throws) with an error.
    - Outcome stands for an awaited call that resolves with nothing useful or
      rejects with an error.
 */
module Wrappers {

  /** An error value thrown by a collaborator (database, auth service,
      language model). Only the message is visible to the model. */
  datatype Error = Error(message: string)

  datatype Option<+T> = None | Some(value: T) {

    /** The value, or `default` when absent (JavaScript `x ?? default`). */
    function GetOr(default: T): T {
      match this
      case Some(v) => v
      case None => default
    }
  }

  datatype Result<+T> = Ok(value: T) | Err(error: Error) {

    predicate IsFailure() {
      Err?
    }

    function PropagateFailure<U>(): Result<U>
      requires Err?
    {
      Err(error)
    }

    function Extract(): T
      requires Ok?
    {
      value
    }
  }

  datatype Outcome = Pass | Fail(error: Error) {

    predicate IsFailure() {
      Fail?
    }

    function PropagateFailure(): Outcome
      requires Fail?
    {
      this
    }
  }
}
