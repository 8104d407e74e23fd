/** Option and Result, used for the absent JSON keys and the error returns of the endpoints. */
module Wrappers {

  datatype Option<+T> = None | Some(value: T) {
    /** The value, or `default` when absent (Python's `dict.get(key, default)`). */
    function GetOr(default: T): T {
      match this
      case Some(v) => v
      case None => default
    }
  }

  datatype Result<+R, +E> = Success(value: R) | Failure(error: E)

  /** An `HTTPException` raised by an endpoint: its status code and its detail text. */
  datatype HttpError = HttpError(status: int, detail: string)
}
