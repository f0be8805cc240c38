/** Optional values and results with an error path, shared by every module. */
module Results {

  /** A value that may be absent (Python's `None`). */
  datatype Option<+T> = None | Some(value: T) {
    function GetOr(default: T): T {
      match this
      case Some(v) => v
      case None => default
    }
  }

  /** The outcome of a computation that may raise: `Error` carries the message. */
  datatype Result<+T> = Ok(value: T) | Error(message: string)
}
