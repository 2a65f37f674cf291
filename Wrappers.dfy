/** Failure-carrying values used in place of Python's None results and raised exceptions. */
module Wrappers {

  /** A value that may be missing: a JSON key that is absent, a call that raised. */
  datatype Option<+T> = None | Some(value: T) {

    /** The wrapped value, or `default` when there is none. */
    function GetOr(default: T): T {
      match this
      case Some(v) => v
      case None => default
    }
  }

  /** The outcome of a call that either returns a value or raises an exception `E`. */
  datatype Result<+T, +E> = Ok(value: T) | Err(error: E)
}
