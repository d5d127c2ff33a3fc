/** Outcomes shared by every endpoint: an optional value, and either a value or the
    HTTP error (status code and detail text) that the endpoint raises. */
module Errors {

  datatype Option<+T> = None | Some(value: T) {
    /** The value, or `default` when absent: Python's `d.get(key, default)`. */
    function GetOr(default: T): T {
      match this
      case Some(v) => v
      case None => default
    }
  }

  /** An `HTTPException`: status code and detail message. */
  datatype HttpError = HttpError(status: int, detail: string)

  datatype Result<+T> = Ok(value: T) | Fail(error: HttpError)

  const BadRequest: int := 400
  const Unauthorized: int := 401
  const Forbidden: int := 403
  const NotFound: int := 404
  const UnprocessableEntity: int := 422
  const InternalServerError: int := 500
  const ServiceUnavailable: int := 503
}
