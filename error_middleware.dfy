/**
 * The Express error handler: turns whatever a handler threw into a status
 * code and a JSON body `{message, stack?, details?}`.
 */
module ErrorMiddleware {
  import opened Wrappers
  import opened Js
  import opened Exceptions

  /** The JSON object written to the response. */
  datatype ErrorBody = ErrorBody(message: string, stack: Option<string>, details: Option<JsValue>)

  datatype ErrorResponse = ErrorResponse(status: int, body: ErrorBody)

  const UnexpectedSyntax: string := "Unexpected Syntax"

  /**
   * The error that is reported: a `SyntaxError` becomes a 500 `AppError`, an
   * error named `NotFoundError` becomes a fresh `NotFoundError` with the
   * default message, anything else is reported as it is.
   */
  function Reported(err: ThrownError): (c: ThrownError)
    ensures err.name == "SyntaxError" ==> c.statusCode == Some(500) && c.message == UnexpectedSyntax
    ensures err.name == "NotFoundError" ==> c.statusCode == Some(404) && c.message == DefaultMessage(NotFoundError)
    ensures err.name != "SyntaxError" && err.name != "NotFoundError" ==> c == err
  {
    if err.name == "SyntaxError" then
      AsThrown(AppError(500, UnexpectedSyntax, Undefined), err.stack)
    else if err.name == "NotFoundError" then
      AsThrown(Raise(NotFoundError, None), err.stack)
    else
      err
  }

  /**
   * The response for a thrown error under the given `NODE_ENV`. The status
   * and message come from the reported error (500 when it has no status);
   * the stack, only in development, and the details, whenever truthy, come
   * from the ORIGINAL error, even when it was replaced.
   */
  function Handle(err: ThrownError, nodeEnv: string): (r: ErrorResponse)
    ensures r.status == Reported(err).statusCode.GetOr(500)
    ensures r.body.message == Reported(err).message
    ensures r.body.stack.Some? <==> nodeEnv == "development" && err.stack.Some? && err.stack.value != ""
    ensures r.body.stack.Some? ==> r.body.stack == err.stack
    ensures r.body.details.Some? <==> Truthy(err.details)
    ensures r.body.details.Some? ==> r.body.details.value == err.details
  {
    var customError := Reported(err);
    var stack :=
      if nodeEnv == "development" && err.stack.Some? && err.stack.value != "" then err.stack else None;
    var details := if Truthy(err.details) then Some(err.details) else None;
    ErrorResponse(customError.statusCode.GetOr(500), ErrorBody(customError.message, stack, details))
  }

  /** A `SyntaxError` (a malformed JSON body) always answers 500 "Unexpected Syntax". */
  lemma SyntaxErrorIs500(err: ThrownError, nodeEnv: string)
    requires err.name == "SyntaxError"
    ensures Handle(err, nodeEnv).status == 500
    ensures Handle(err, nodeEnv).body.message == UnexpectedSyntax
  {
  }

  /** An error named `NotFoundError` answers 404 with the default message; its own message is dropped. */
  lemma NotFoundByNameIs404(err: ThrownError, nodeEnv: string)
    requires err.name == "NotFoundError"
    ensures Handle(err, nodeEnv).status == 404
    ensures Handle(err, nodeEnv).body.message == "Not Found"
  {
  }

  /**
   * Every error of the app's own hierarchy reaches the client with its own
   * status and message: being named "Error", it is never replaced, so a
   * thrown `NotFoundError('Chat session not found')` keeps its message.
   */
  lemma AppErrorKeepsStatusAndMessage(e: AppError, stack: Option<string>, nodeEnv: string)
    ensures Handle(AsThrown(e, stack), nodeEnv).status == e.statusCode
    ensures Handle(AsThrown(e, stack), nodeEnv).body.message == e.message
  {
  }

  /** An error without a status code that is not replaced answers 500 with its own message. */
  lemma UnknownErrorIs500(err: ThrownError, nodeEnv: string)
    requires err.name != "SyntaxError" && err.name != "NotFoundError" && err.statusCode.None?
    ensures Handle(err, nodeEnv).status == 500
    ensures Handle(err, nodeEnv).body.message == err.message
  {
  }
}
