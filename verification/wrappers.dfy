/** Failure-carrying wrappers shared by every module of the model.
    `Option` stands for a JavaScript value that may be `null`/`undefined`
    (or, for JSON values, a missing property); `Result` stands for a
    computation that either returns a value or throws an `Error` whose
    message is kept. */
module Wrappers {

  datatype Option<+T> = None | Some(value: T) {

    predicate IsFailure() {
      None?
    }

    function PropagateFailure<U>(): Option<U>
      requires None?
    {
      None
    }

    function Extract(): T
      requires Some?
    {
      value
    }

    /** The value, or `default` when absent (JavaScript's `x ?? default`). */
    function GetOr(default: T): T {
      match this
      case Some(v) => v
      case None => default
    }
  }

  /** `Ok(v)` is a normal return; `Throw(m)` is an exception with message `m`. */
  datatype Result<+T> = Ok(value: T) | Throw(message: string) {

    predicate IsFailure() {
      Throw?
    }

    function PropagateFailure<U>(): Result<U>
      requires Throw?
    {
      Throw(message)
    }

    function Extract(): T
      requires Ok?
    {
      value
    }

    /** A `try { … } catch { return null }` around the computation. */
    function Caught(): Option<T> {
      match this
      case Ok(v) => Some(v)
      case Throw(_) => None
    }
  }
}
