/** Option and Result, used for values that may be missing and for Python exceptions. */
module Wrappers {

  datatype Option<+T> = None | Some(value: T)

  datatype Result<+T, +E> = Ok(value: T) | Err(error: E) {
    predicate IsFailure() { Err? }
  }

  /** A Python exception that escapes the code being modelled, named by its class
      (`ValueError`, `TypeError`, `KeyError`, `IndexError`, `AttributeError`). */
  datatype PyError = PyError(kind: string)
}
