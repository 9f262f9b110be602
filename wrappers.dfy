/** Failure-compatible wrappers shared by every module of the model. */
module Wrappers {

  /** Python's `None` or a value. */
  datatype Option<+T> = None | Some(value: T) {
    function GetOr(default: T): T {
      match this
      case Some(v) => v
      case None => default
    }
  }

  /** A value or an error, standing for a Python exception or an error return. */
  datatype Result<+R, +E> = Ok(value: R) | Err(error: E)

  /** A string-valued entry of a JSON body or a dictionary: the key is missing, holds `null`, or holds a string. */
  datatype Field = Absent | Null | Value(s: string)
}
