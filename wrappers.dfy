/** Option and Result, used for absent values and for the outcomes of collaborator calls. */
module Wrappers {

  datatype Option<+T> = None | Some(value: T) {
    function GetOr(default: T): T {
      match this
      case Some(v) => v
      case None => default
    }
  }

  datatype Result<+R, +E> = Success(value: R) | Failure(error: E)

  /** An outcome with no value: `Pass` or `Fail(error)`. */
  datatype Outcome<+E> = Pass | Fail(error: E)
}
