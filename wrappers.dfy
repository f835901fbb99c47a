/** Option and Result, used wherever the source returns `undefined`, throws or rejects. */
module Wrappers {

  datatype Option<+T> = None | Some(value: T) {
    function GetOr(default: T): T {
      match this
      case Some(v) => v
      case None => default
    }
  }

  /** `Ok` is a normal return or a resolved promise; `Err` a throw or a rejection. */
  datatype Result<+T, +E> = Ok(value: T) | Err(error: E)
}
