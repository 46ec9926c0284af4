/** Failure-carrying values shared by every module of the HURDAT2 model.
    The analysis script signals failure with Python exceptions; the model
    returns them as values instead, keeping the exception class. */
module Common {

  datatype Option<+T> = None | Some(value: T)

  /** An exception the script would raise, named after its Python class. */
  datatype Error =
    | IndexError(what: string)   // a list or string index out of range
    | ValueError(what: string)   // a field that int(), float() or strptime() refuses, or a bad direction

  datatype Result<+T> = Ok(value: T) | Err(error: Error)
}
