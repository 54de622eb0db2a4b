/** Outcomes shared by the evaluator and the parser: a value, or the way the
    interpreter stops instead of producing one. */
module Failures {

  /** The situations in which the parser raises its own ParseError. */
  datatype ParseErrorReason =
    | MissingElement        // '}' in operand position without a matching '{'
    | UnexpectedToken       // a token the operand state does not accept
    | ExpectedVariableName  // the item beneath '=' is not a variable name
    | ComplementExpectsSet  // the target of "'" is not a set
    | UniversalSetUndefined // "'" used while no variable "S" exists
    | ExpectedFunction      // '(' ... ')' preceded by something that is not a name
    | UndefinedBehavior     // a token the operator state does not accept

  /** Plain Python errors that escape the interpreter without being wrapped. */
  datatype PyErrorKind =
    | IndexError      // pop from an empty deque, or a missing list element
    | KeyError        // call of a name that is not in the function table
    | TypeError       // `in`, `len` or iteration on a value that does not support it
    | AssertionError  // the final stack item is not END

  datatype Failure =
    | ParseError(reason: ParseErrorReason)
    | EvaluateError
    | PyError(kind: PyErrorKind)
    | Diverges  // the reduction loop repeats forever without changing anything

  datatype Result<+T> = Ok(value: T) | Fail(failure: Failure) {
    predicate IsFailure() { Fail? }

    function PropagateFailure<U>(): Result<U>
      requires Fail?
    {
      Fail(failure)
    }

    function Extract(): T
      requires Ok?
    {
      value
    }
  }

  datatype Option<+T> = None | Some(value: T)
}
