/** Option and Result values used across the model in place of `null` and thrown errors. */
module Wrappers {

  datatype Option<+T> = None | Some(value: T) {
    function GetOr(default: T): T {
      match this
      case Some(v) => v
      case None => default
    }
  }

  /** The outcome of a call whose failure carries a message (a rejected promise or a thrown Error). */
  datatype Result<+T, +E> = Ok(value: T) | Err(error: E)
}
