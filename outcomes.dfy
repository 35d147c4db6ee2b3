/** Small failure-carrying datatypes shared by the printing and the submission modules. */
module Outcomes {

  /** A value that may be absent (PHP's null or false). */
  datatype Option<+T> = None | Some(value: T)

  /** The result of a step that either yields a value or raises an exception carrying a message.
      It supports `:-`, so a chain of steps stops at the first exception, as a PHP `try` block does. */
  datatype Outcome<+T> = Ok(value: T) | Thrown(message: string) {

    predicate IsFailure() {
      Thrown?
    }

    function PropagateFailure<U>(): Outcome<U>
      requires Thrown?
    {
      Thrown(message)
    }

    function Extract(): T
      requires Ok?
    {
      value
    }
  }
}
