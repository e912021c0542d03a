/** HTTP-level errors and the exceptions a handler's steps can raise. */
module Http {

  /** What FastAPI sends back for a raised `HTTPException(status_code, detail)`. */
  datatype HttpError = HttpError(status: int, detail: string)

  /** An exception raised inside a handler: an `HTTPException`, or any other exception with its `str(e)`. */
  datatype Fault = Raised(error: HttpError) | Exception(message: string)

  const Unauthorized := 401
  const Forbidden := 403
  const NotFound := 404
  const BadRequest := 400
  const UnsupportedMediaType := 415
  const UnprocessableEntity := 422
  const InternalServerError := 500

  /** The request body failed the declared field constraints; the framework answers 422 before the handler runs. */
  const ValidationFailed := HttpError(UnprocessableEntity, "request validation failed")

  /** An exception that escapes a route handler becomes the framework's plain 500 response. */
  const Unhandled := HttpError(InternalServerError, "Internal Server Error")

  /** Starlette's `str()` of an HTTPException: "<status>: <detail>". */
  function Str(e: HttpError): string {
    DecimalString(e.status) + ": " + e.detail
  }

  function DecimalString(n: int): string
    decreases if n < 0 then 1 - n else n
  {
    if n < 0 then "-" + DecimalString(-n)
    else if n < 10 then [(n as char + '0' as char) as char]
    else DecimalString(n / 10) + DecimalString(n % 10)
  }
}
