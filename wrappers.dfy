/** Failure-compatible wrappers shared by every module of the model. */
module Wrappers {

  /** An optional value: `None` stands for Python's `None`, and for a NaN sample. */
  datatype Option<+T> = None | Some(value: T) {
    function GetOr(default: T): T {
      match this
      case Some(v) => v
      case None => default
    }
  }

  /** The outcome of a Python call that may raise. */
  datatype Result<+R, +E> = Ok(value: R) | Err(error: E)

  /** The Python exceptions the modelled code can raise. */
  datatype PyError =
    | IndexError
    | ValueError
    | TypeError
    | KeyError
    | NameError
    | AttributeError
    | ZeroDivisionError
}
