/** Option and Result values shared by every module of the model. */
module Wrappers {
  datatype Option<T> = None | Some(value: T)
  {
    function GetOr(default: T): (r: T)
      ensures Some? ==> r == value
      ensures None? ==> r == default
    {
      match this
      case Some(v) => v
      case None => default
    }
  }

  /** A Python exception or an HTTP error, carried as a value instead of raised. */
  datatype Result<T, E> = Ok(value: T) | Err(error: E)

  /** FastAPI's `HTTPException(status_code, detail)`. */
  datatype HttpError = HttpError(status: nat, detail: string)

  /** What a call into a collaborator did: the value it returned, or the text of the exception it raised. */
  datatype Outcome<R> = Returned(result: R) | Raised(message: string)
}
