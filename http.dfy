/** The `HTTPException` values the handlers raise: a status code, the
    `detail` text and any extra response headers. */
module Http {

  type Header = (string, string)

  datatype HttpError = HttpError(status: int, detail: string, headers: seq<Header>)

  function BadRequest(detail: string): HttpError { HttpError(400, detail, []) }

  function NotFound(detail: string): HttpError { HttpError(404, detail, []) }

  function BadGateway(detail: string): HttpError { HttpError(502, detail, []) }

  /** What the framework answers when a handler raises something other than
      an `HTTPException` (a pydantic validation error, a `TypeError`). */
  const InternalServerError := HttpError(500, "Internal Server Error", [])
}
