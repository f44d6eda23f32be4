/** Option and Result wrappers shared by every module of the model. */
module Base {

  /** A value that may be absent (the source's `null`). */
  datatype Option<+T> = None | Some(value: T) {
    function GetOr(default: T): T {
      match this
      case Some(v) => v
      case None => default
    }
  }

  /** The outcome of an operation that can throw in the source (a JSON parse error, say). */
  datatype Result<+T> = Ok(value: T) | Err(reason: string)

  function Min(a: int, b: int): int {
    if a <= b then a else b
  }
}
