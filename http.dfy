/** What a handler hands back to the framework: a response body with its status, or a raised
    HTTPException (status code and detail). */
module Http {

  datatype HttpError = HttpError(statusCode: int, detail: string)

  datatype Response<+T> = Ok(statusCode: int, body: T) | Raised(error: HttpError)

  /** The body of a successful delete: `{"deleted": id}`. */
  datatype Deleted = Deleted(deleted: int)

  const ConnectionFailedPrefix: string := "Connection failed: "

  /** The 500 error every handler raises for an exception other than HTTPException. */
  function ConnectionFailed(message: string): HttpError
  {
    HttpError(500, ConnectionFailedPrefix + message)
  }
}
