/** Optional values and results shared by every module of the model. */
module Basics {

  /** A value that may be absent: JavaScript's `undefined`/`null`, Rust's `Option`. */
  datatype Option<+T> = None | Some(value: T)
  {
    function GetOr(default: T): (r: T)
      ensures Some? ==> r == value
      ensures None? ==> r == default
    {
      match this
      case Some(v) => v
      case None => default
    }
  }

  /** The outcome of a call that can fail: a command's `status: "ok"`/`"error"` reply. */
  datatype Result<+T> = Ok(value: T) | Err(error: string)
}
