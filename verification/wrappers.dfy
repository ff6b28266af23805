/** The two failure-carrying wrappers the model uses in place of Java's
    null references and exceptions. */
module Wrappers {

  /** A value that may be absent: `None` stands for a Java `null`. */
  datatype Option<+T> = None | Some(value: T) {
    function GetOr(default: T): T {
      match this
      case Some(v) => v
      case None => default
    }
  }

  /** The outcome of an operation that either succeeds or throws a typed error. */
  datatype Result<+R, +E> = Ok(value: R) | Err(error: E)
}
