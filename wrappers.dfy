/** Option and Result values used in place of Python's None and raised exceptions. */
module Wrappers {

  /** `None` stands for Python's `None`, `Some(v)` for a present value. */
  datatype Option<+T> = None | Some(value: T) {

    /** The value if present, `default` otherwise: `os.getenv(name, default)`. */
    function GetOr(default: T): T {
      match this
      case Some(v) => v
      case None => default
    }
  }

  /** `Ok(v)` is a normal return, `Err(e)` an exception `e` propagating to the caller. */
  datatype Result<+T, +E> = Ok(value: T) | Err(error: E)
}
