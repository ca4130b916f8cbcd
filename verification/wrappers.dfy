/** Failure-carrying values used in place of Java's null references and exceptions. */
module Wrappers {

  /** A reference that may be null. */
  datatype Option<+T> = None | Some(value: T)

  /** The exceptions the planner throws: its own InvalidInputException, Java's
      ArithmeticException and the StringIndexOutOfBoundsException of String.substring. */
  datatype Error =
    | InvalidInput(message: string)
    | Arithmetic(message: string)
    | IndexOutOfBounds

  /** Either the value a Java method returns or the exception it throws. */
  datatype Result<+T> = Ok(value: T) | Err(error: Error) {
    predicate IsFailure() { Err? }

    function PropagateFailure<U>(): Result<U>
      requires Err?
    {
      Err(error)
    }

    function Extract(): T
      requires Ok?
    {
      value
    }
  }

  /** System.lineSeparator(), fixed to the Unix separator. */
  const NewLine: string := "\n"
}
