/**
 * The server's exception classes. `AppError` carries a status code, a message
 * and optional details; each subclass fixes the status code and supplies a
 * default message when none is given.
 */
module Exceptions {
  import opened Wrappers
  import opened Js

  /** The subclasses of `AppError`. */
  datatype ErrorKind =
    | BadRequestError
    | NotFoundError
    | ForbiddenError
    | UnauthorizedError
    | InternalServerError

  /** An `AppError` instance. */
  datatype AppError = AppError(statusCode: int, message: string, details: JsValue)

  /** The HTTP status each subclass passes to `AppError`. */
  function StatusOf(kind: ErrorKind): (code: int)
    ensures 400 <= code <= 599
  {
    match kind
    case BadRequestError => 400
    case NotFoundError => 404
    case ForbiddenError => 403
    case UnauthorizedError => 401
    case InternalServerError => 500
  }

  /** The message a subclass uses when constructed without one. */
  function DefaultMessage(kind: ErrorKind): (m: string) {
    match kind
    case BadRequestError => "Bad Request"
    case NotFoundError => "Not Found"
    case ForbiddenError => "Forbidden"
    case UnauthorizedError => "You are not authorized to access this route."
    case InternalServerError => "Internal Server Error"
  }

  /** Distinct subclasses answer with distinct statuses, so the status identifies the subclass. */
  lemma StatusIdentifiesKind(k1: ErrorKind, k2: ErrorKind)
    requires StatusOf(k1) == StatusOf(k2)
    ensures k1 == k2
  {
  }

  /** `new <Kind>(message?)`: the subclass's status, the given message or else the default (`??`), no details. */
  function Raise(kind: ErrorKind, message: Option<string>): (e: AppError)
    ensures e.statusCode == StatusOf(kind)
    ensures message.Some? ==> e.message == message.value
    ensures message.None? ==> e.message == DefaultMessage(kind)
    ensures !Truthy(e.details)
  {
    AppError(StatusOf(kind), message.GetOr(DefaultMessage(kind)), Undefined)
  }

  /** `new BadRequestError(message)`. */
  function BadRequest(message: string): (e: AppError) {
    Raise(BadRequestError, Some(message))
  }

  /** `new NotFoundError(message)`. */
  function NotFound(message: string): (e: AppError) {
    Raise(NotFoundError, Some(message))
  }

  /**
   * Any value thrown inside a request handler, as the error middleware sees
   * it: `name`, `message`, an optional `statusCode`, an optional `stack` and
   * a `details` property.
   */
  datatype ThrownError = ThrownError(
    name: string,
    message: string,
    statusCode: Option<int>,
    stack: Option<string>,
    details: JsValue)

  /**
   * No class in the hierarchy assigns `name`, so every `AppError` inherits
   * `Error.prototype.name`.
   */
  const AppErrorName: string := "Error"

  /**
   * An `AppError` once thrown; its stack is produced by the runtime. Nothing
   * of the error is lost: its status, message and details read back from
   * the thrown value. Its name is neither of the two names the error
   * middleware replaces.
   */
  function AsThrown(e: AppError, stack: Option<string>): (t: ThrownError)
    ensures t.statusCode.Some? && AppError(t.statusCode.value, t.message, t.details) == e
    ensures t.name == AppErrorName && t.name != "SyntaxError" && t.name != "NotFoundError"
    ensures t.stack == stack
  {
    ThrownError(AppErrorName, e.message, Some(e.statusCode), stack, e.details)
  }
}
