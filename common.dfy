/** Wrappers for nullable values and thrown exceptions: Java's nullable
    references and Optional become Option, and thrown exceptions become the
    failure side of Result or Outcome. */
module Common {

  datatype Option<T> = None | Some(value: T) {
    function GetOr(default: T): T {
      match this
      case Some(v) => v
      case None => default
    }
  }

  /** Result of an operation that returns a value or fails. */
  datatype Result<T, E> = Ok(value: T) | Err(error: E)

  /** Result of an operation that returns nothing (a Java void method) or fails. */
  datatype Outcome<E> = Pass | Fail(error: E)
}
