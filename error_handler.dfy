/**
 * The server's terminal error-handling middleware: every error that reaches it
 * is turned into an HTTP status and a JSON body `{error: {message, status}}`.
 *
 * The status is the error's `statusCode` when that is truthy and 500
 * otherwise; the message is the error's `message` when that is truthy and a
 * fixed fallback otherwise. JavaScript truthiness applies: a status of 0 and an
 * empty message count as missing.
 */
module ErrorHandler {
  import opened Wrappers
  import OriginPolicy

  const InternalServerError: int := 500
  const FallbackMessage: string := "An unknown error occurred"

  /** An error passed to the handler: its `statusCode` and `message` properties, either possibly undefined. */
  datatype RaisedError = RaisedError(statusCode: Option<int>, message: Option<string>)

  /** The `error` object of the JSON body. */
  datatype ErrorBody = ErrorBody(message: string, status: int)

  /** The response: the HTTP status sent and the body `{error: ErrorBody}`. */
  datatype ErrorResponse = ErrorResponse(httpStatus: int, error: ErrorBody)

  /** `err.statusCode` is truthy: present and not 0. */
  predicate HasStatus(err: RaisedError) {
    err.statusCode.Some? && err.statusCode.value != 0
  }

  /** `err.message` is truthy: present and not the empty string. */
  predicate HasMessage(err: RaisedError) {
    err.message.Some? && err.message.value != ""
  }

  /** The status and message selection of the error handler. */
  function Respond(err: RaisedError): (r: ErrorResponse)
    ensures r.error.status == r.httpStatus
    ensures r.httpStatus != 0 && r.error.message != ""
    ensures HasStatus(err) ==> r.httpStatus == err.statusCode.value
    ensures !HasStatus(err) ==> r.httpStatus == InternalServerError
    ensures HasMessage(err) ==> r.error.message == err.message.value
    ensures !HasMessage(err) ==> r.error.message == FallbackMessage
  {
    var statusCode := if HasStatus(err) then err.statusCode.value else InternalServerError;
    var message := if HasMessage(err) then err.message.value else FallbackMessage;
    ErrorResponse(statusCode, ErrorBody(message, statusCode))
  }

  /** The error a response describes, as it would be raised again. */
  function Reraise(r: ErrorResponse): RaisedError {
    RaisedError(Some(r.httpStatus), Some(r.error.message))
  }

  /** Responding to the error a response describes gives that response back. */
  lemma RespondIsIdempotent(err: RaisedError)
    ensures Respond(Reraise(Respond(err))) == Respond(err)
  {
  }

  /**
   * The `Error` the origin callback raises for a rejected origin: it carries
   * the policy's message and no `statusCode`.
   */
  function CorsError(d: OriginPolicy.Decision): (err: RaisedError)
    requires d.Deny?
    ensures !HasStatus(err)
    ensures err.message == Some(d.message)
  {
    RaisedError(None, Some(d.message))
  }

  /** A rejected origin ends as a 500 response carrying the CORS policy message. */
  lemma RejectedOriginResponse(origin: Option<string>)
    requires !OriginPolicy.AdmissibleUnder([], origin)
    ensures OriginPolicy.Admit(origin).Deny?
    ensures Respond(CorsError(OriginPolicy.Admit(origin)))
      == ErrorResponse(InternalServerError, ErrorBody(OriginPolicy.DenyMessage, InternalServerError))
  {
  }

  /** A route's 404 is sent as 404, with its message, and the body repeats the status. */
  lemma NotFoundExample(msg: string)
    requires msg != ""
    ensures Respond(RaisedError(Some(404), Some(msg))) == ErrorResponse(404, ErrorBody(msg, 404))
    ensures Respond(RaisedError(None, None)) == ErrorResponse(500, ErrorBody(FallbackMessage, 500))
    ensures Respond(RaisedError(Some(0), Some(""))) == ErrorResponse(500, ErrorBody(FallbackMessage, 500))
  {
  }
}
