/**
 * Result and option wrappers shared by the whole model, and the error taxonomy
 * of the expression engine: every failure is a value, never a crash.
 */
module Outcomes {

  /** A possibly absent reference; `None` plays the part of a null pointer. */
  datatype Option<+T> = None | Some(value: T)

  /** Failures that the engine reports instead of aborting. */
  datatype Error =
    | SyntaxError          // the token sequence is not Number (Operator Number)*
    | UnsupportedOperator  // an operator character outside + - * / =
    | TypeMismatch         // a value that cannot be read as the required type
    | DivisionByZero       // the right operand of a division is zero

  datatype Result<+T> = Ok(value: T) | Err(error: Error) {
    predicate IsFailure() { Err? }

    function PropagateFailure<U>(): Result<U>
      requires Err?
    {
      Err(error)
    }

    function Extract(): T
      requires Ok?
    {
      value
    }
  }
}
