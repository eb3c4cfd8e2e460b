/**
 * The application-wide error handlers: a missing route, a throwable raised
 * inside a route, and a failed authentication each become a fixed kind of
 * response.
 */
module GlobalErrorHandler {
  import opened Wrappers
  import opened Web

  const NotFound: int := 404
  const Unauthorized: int := 401
  const InternalServerError: int := 500
  const ApplicationJson: string := "application/json"

  /** The body every authentication failure gets. */
  const AuthenticationRequired: Body := ErrorBody(ErrorMessage(Some("Requires authentication")))

  /** No handler for the request: 404 with text "Not Found", whatever the request and the exception. */
  function HandleNotFound(request: Request, error: Throwable): (r: ServerResponse)
    ensures r.status == NotFound && r.body == ErrorBody(ErrorMessage(Some("Not Found")))
  {
    ServerResponse(NotFound, ErrorBody(ErrorMessage(Some("Not Found"))))
  }

  /** A throwable raised inside a route: 500 with the throwable's own message (possibly null) as text. */
  function HandleInternalError(error: Throwable, request: Request): (r: ServerResponse)
    ensures r.status == InternalServerError && r.body == ErrorBody(ErrorMessage(error.message))
  {
    ServerResponse(InternalServerError, ErrorBody(ErrorMessage(error.message)))
  }

  /** Two different throwables give the same response exactly when their messages agree. */
  lemma InternalErrorKeepsMessage(e1: Throwable, e2: Throwable, r1: Request, r2: Request)
    ensures HandleInternalError(e1, r1) == HandleInternalError(e2, r2) <==> e1.message == e2.message
  {
    if HandleInternalError(e1, r1) == HandleInternalError(e2, r2) {
      assert HandleInternalError(e1, r1).body.error.text == e1.message;
    }
  }

  /**
   * Authentication failure, written straight onto the servlet response: status
   * 401, then the JSON content type, then the body, then a flush. The body does
   * not depend on the request or on which failure occurred.
   */
  method HandleAuthenticationError<F>(request: Request, response: ServletResponse, error: F)
    requires response.isHttp
    modifies response`status, response`contentType, response`written, response`flushed, response`ops
    ensures response.status == Unauthorized
    ensures response.contentType == Some(ApplicationJson)
    ensures response.written == old(response.written) + [AuthenticationRequired]
    ensures response.flushed
    ensures response.ops == old(response.ops) +
      [StatusSet(Unauthorized), ContentTypeSet(ApplicationJson), BodyWritten(AuthenticationRequired), BufferFlushed]
  {
    var errorMessage := AuthenticationRequired;
    response.SetStatus(Unauthorized);
    response.SetContentType(ApplicationJson);
    response.Write(errorMessage);
    response.FlushBuffer();
  }
}
