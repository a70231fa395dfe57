/** Optional values and results of operations that may raise. */
module Wrappers {

  datatype Option<+T> = None | Some(value: T) {
    function GetOr(default: T): T {
      match this
      case Some(v) => v
      case None => default
    }
  }

  /** `Err` stands for a Python exception that propagates out of the call. */
  datatype Result<+T> = Ok(value: T) | Err(reason: string)
}
