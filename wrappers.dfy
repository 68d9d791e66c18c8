/** Small failure-carrying datatypes shared by the back end and the client. */
module Wrappers {

  /** A value that may be absent: Python's `None`, JavaScript's `null`/`undefined`. */
  datatype Option<+T> = None | Some(value: T) {
    function GetOr(default: T): T {
      match this
      case Some(v) => v
      case None => default
    }
  }

  /** The outcome of a call into code outside the model: it returned a value or raised. */
  datatype Attempt<+T> = Done(value: T) | Raised(message: string)
}
