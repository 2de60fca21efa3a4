/** Failure-carrying return types. The banking code signals failures by
    raising `ValueError` (or by showing an error dialog and returning);
    here every such failure becomes an `Err` value that carries its kind. */
module Outcomes {

  datatype Option<+T> = None | Some(value: T) {
    /** The value, or `default` when there is none. */
    function GetOr(default: T): T {
      match this
      case Some(v) => v
      case None => default
    }
  }

  datatype Result<+T, +E> = Ok(value: T) | Err(error: E) {
    /** The value, or `default` on failure: a refused request leaves the
        caller's state as it was. */
    function GetOr(default: T): T {
      match this
      case Ok(v) => v
      case Err(_) => default
    }
  }
}
