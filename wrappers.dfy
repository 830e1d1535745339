/** Option and Result values standing in for the nullable values and the
    fatal exits of the exporter. */
module Wrappers {

  /** A value that may be absent (`undefined` or `null` in the program). */
  datatype Option<+T> = None | Some(value: T) {

    /** The wrapped value, or `default` when there is none. */
    function GetOr(default: T): T {
      match this
      case Some(v) => v
      case None => default
    }
  }

  /** Either a successful value or the error that ends the run. */
  datatype Result<+T, +E> = Success(value: T) | Failure(error: E)
}
