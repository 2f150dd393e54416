/** Failure-carrying values shared by the vectorizer and the ranker. */
module Wrappers {

  /** A value that may be absent, such as the cell of a column a frame does not have. */
  datatype Option<+T> = None | Some(value: T) {
    function GetOr(default: T): T {
      match this
      case Some(v) => v
      case None => default
    }
  }

  /** The outcome of a pandas call that can raise: the value, or the error it raises. */
  datatype Result<+R, +E> = Success(value: R) | Failure(error: E)
}
