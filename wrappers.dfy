/** Failure-carrying values shared by every module of the model. */
module Wrappers {

  /** A value that may be absent (Python's `None`). */
  datatype Option<+T> = None | Some(value: T) {
    function GetOr(default: T): T {
      match this
      case Some(v) => v
      case None => default
    }
  }

  /** The outcome of something that can raise: its value, or the text of the exception. */
  datatype Result<+T, +E> = Ok(value: T) | Err(error: E)

  /** An HTTP error response raised by an endpoint (FastAPI's HTTPException). */
  datatype HttpError = HttpError(status: int, detail: string)
}
