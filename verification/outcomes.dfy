/** Outcomes of the modelled operations: a value, or the Python exception the code raises. */
module Outcomes {

  /** The exceptions the modelled code raises or lets escape. */
  datatype Error =
    | ValueError         // empty vector, malformed matrix, dimension mismatch
    | ZeroDivisionError  // rescaling an all-zero vector divides by complex 0
    | IndexError         // a matrix row shorter than the dimension, or a stored pair shorter than 2
    | KeyError           // a stored record without one of its keys

  datatype Result<+T> = Ok(value: T) | Err(error: Error)

  datatype Option<+T> = None | Some(value: T)
}
