/** Result and optional values used throughout the model. */
module Wrappers {

  /** An optional value; `None` stands for a JavaScript argument or property
      that is absent (`undefined` or `null`). */
  datatype Option<+T> = None | Some(value: T) {
    function GetOr(default: T): T {
      match this
      case Some(v) => v
      case None => default
    }
  }

  /** The outcome of an operation that may raise. */
  datatype Result<+R, +E> = Success(value: R) | Failure(error: E)
}
