/** Option and Result: the stand-ins for Java's null and for thrown exceptions. */
module Wrappers {

  datatype Option<+T> = None | Some(value: T) {
    function GetOr(default: T): T {
      match this
      case Some(v) => v
      case None => default
    }
  }

  /** `Failure` carries the message of the exception the Java code would throw. */
  datatype Result<+R, +E> = Success(value: R) | Failure(error: E)
}
