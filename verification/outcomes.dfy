/** Failure-carrying results for the exceptions the builder can raise. */
module Outcomes {

  /** A value that may be absent; stands for a Python call that may raise. */
  datatype Option<+T> = None | Some(value: T)

  /** The exceptions of the modelled code, with the position that caused them. */
  datatype Error =
    | IndexError(index: int)       // a list index out of range
    | EmptyLine(line: nat)         // `line[0]` on an empty line
    | ValueError(line: nat)        // `float(line)` on a line that is not a number
    | TypeError                    // STOK given the wrong parameter records
    | UnknownShape(shape: string)  // a port shape with no construction

  /** Either the value of a call or the exception it raised. */
  datatype Result<+T> = Ok(value: T) | Err(error: Error) {

    predicate IsFailure() {
      Err?
    }

    function PropagateFailure<U>(): Result<U>
      requires Err?
    {
      Err(error)
    }

    function Extract(): T
      requires Ok?
    {
      value
    }
  }
}
