/**
 * Optional values (the model's stand-in for JavaScript's `undefined` and
 * `null`) and the outcome of a form validation.
 */
module Wrappers {

  datatype Option<+T> = None | Some(value: T) {

    /** The wrapped value, or `default` when there is none (`x ?? default`). */
    function GetOr(default: T): T {
      match this
      case Some(v) => v
      case None => default
    }
  }

  /** A validated value, or the reasons it was refused. */
  datatype Result<+T, +E> = Ok(value: T) | Err(error: E)
}
