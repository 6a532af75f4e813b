/** Failure-compatible result type shared by every reader.  The Python readers
    raise exceptions; each exception the readers can raise becomes one Error. */
module Wrappers {

  datatype Error =
    | Truncated                          // struct.error: fewer bytes left than calcsize(format)
    | NegativeSeek                       // seek to a position before the start of the stream
    | BadMagic(expected: int, found: int) // the header id is not the file kind's magic number
    | NegativeRadicand                   // math.sqrt of a negative number (ValueError)

  datatype Result<+T> = Ok(value: T) | Err(error: Error) {

    predicate IsFailure() {
      Err?
    }

    function PropagateFailure<U>(): Result<U>
      requires Err?
    {
      Err(error)
    }

    function Extract(): T
      requires Ok?
    {
      value
    }
  }
}
