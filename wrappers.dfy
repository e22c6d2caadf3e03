/** Option and Result values, standing in for `undefined`/`null` and thrown errors. */
module Wrappers {

  datatype Option<+T> = None | Some(value: T) {
    /** The `??` operator: the value, or `default` when absent. */
    function GetOr(default: T): T {
      match this
      case Some(v) => v
      case None => default
    }
  }

  datatype Result<+T, +E> = Ok(value: T) | Err(error: E)
}
