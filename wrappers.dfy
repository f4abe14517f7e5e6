/** Option and Result datatypes shared by the other modules. */
module Wrappers {

  /** A value that may be missing: a cell pandas reads as NaN, or a timestamp
      that `to_datetime(..., errors='coerce')` turns into NaT. */
  datatype Option<+T> = None | Some(value: T)

  /** The outcome of a run: a value, or the error that aborts the script. */
  datatype Result<+R, +E> = Success(value: R) | Failure(error: E)
}
