/** The exceptions the modelled Python code can raise, and the wrappers that carry
    them. A Python call that either returns or raises is a `Result`; a Python method
    that mutates its object and may raise part-way returns the object as it stands
    together with an `Outcome`. */
module Errors {

  datatype PyError =
    | CalibrationException        // raised by the calibrator when detection fails
    | AttributeError(attr: string) // an attribute read on an object that lacks it
    | ZeroDivisionError
    | LinAlgError                  // np.linalg.inv on a singular matrix
    | IndexError                   // indexing an empty string
    | ValueError                   // np.interp on empty or mismatched samples; an
                                   // array2qimage input that is not 2-D or 3-D

  datatype Result<+T> = Ok(value: T) | Err(error: PyError) {
    predicate IsFailure() { Err? }

    function PropagateFailure<U>(): Result<U>
      requires Err?
    {
      Err(error)
    }

    function Extract(): T
      requires Ok?
    {
      value
    }
  }

  datatype Outcome = Pass | Fail(error: PyError)

  datatype Option<+T> = None | Some(value: T)
}
