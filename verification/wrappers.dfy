/** Failure-compatible helper datatypes shared by the mapper modules. */
module Wrappers {

  /** A value that may be absent (Ruby's `nil`). */
  datatype Option<+T> = None | Some(value: T) {
    function GetOr(default: T): T {
      match this
      case Some(v) => v
      case None => default
    }
  }

  /** A computation that either yields a value or raises an error. */
  datatype Result<+R, +E> = Success(value: R) | Failure(error: E)

  /** A step that either completes or raises an error. */
  datatype Outcome<+E> = Pass | Fail(error: E)
}
