/** The error kinds the modelled Python code raises, and a Result type to carry them. */
module Failures {

  /** An exception raised by the modelled code. */
  datatype PyError =
    | ValueError(message: string)
      /** numpy's "cannot reshape array of size `size` into shape `shape`" (a ValueError) */
    | ReshapeError(size: nat, shape: seq<nat>)
      /** an OpenCV assertion failure inside the named cv2 function */
    | Cv2Error(operation: string)
      /** list or array index out of range */
    | IndexError

  datatype Result<+T> = Ok(value: T) | Err(error: PyError) {
    predicate IsFailure() { Err? }

    function PropagateFailure<U>(): Result<U>
      requires Err?
    {
      Err(error)
    }

    function Extract(): T
      requires Ok?
    {
      value
    }
  }
}
