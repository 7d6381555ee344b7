/** Small failure-compatible helper types shared by every module. */
module Wrappers {

  /** An optional value: `None` stands for Python's missing/None result. */
  datatype Option<+T> = None | Some(value: T) {
    function GetOr(default: T): T {
      match this
      case Some(v) => v
      case None => default
    }
  }

  /** The outcome of an operation that may raise: the value, or the exception's name. */
  datatype Result<+T> = Success(value: T) | Failure(error: string)
}
