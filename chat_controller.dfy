/**
 * The HTTP handlers of the chat routes. Each handler checks the route
 * parameter and the body, calls the chat service and either writes a status
 * and a JSON body or throws, in which case the error middleware answers.
 */
module ChatController {
  import opened Wrappers
  import opened Js
  import opened Exceptions
  import opened ChatService
  import OpenRouter
  import ErrorMiddleware

  const IdRequired: string := "Session ID is required"
  const ContentRequired: string := "Message content is required"

  /** The name of the error the database client throws when a delete finds no row. */
  const StorageErrorName: string := "PrismaClientKnownRequestError"

  /** The JSON a handler writes itself. */
  datatype Body =
    | SessionList(sessions: seq<ChatSession>)
    | SessionBody(session: ChatSession)
    | SendBody(result: SendResult)
    | NoBody                       // `res.send()` with nothing
    | ErrorField(error: string)    // `{ error: ... }`

  /** What a handler throws: an `AppError` of the app, or the database client's own error. */
  datatype Failure = App(error: AppError) | StorageFailure(message: string)

  /** A handler either answers (`res.status(..).json(..)`) or throws to the error middleware. */
  datatype Outcome = Respond(status: int, body: Body) | Throw(failure: Failure)

  /** What finally goes over the wire: a body the handler wrote or the middleware's error body. */
  datatype HttpResponse =
    | HandlerResponse(status: int, body: Body)
    | MiddlewareResponse(status: int, errorBody: ErrorMiddleware.ErrorBody)

  /** `if (!id)`: a route parameter that is missing or empty. */
  predicate IdMissing(id: Option<string>) {
    id.None? || id.value == ""
  }

  /** The request body's `content` as the send handler accepts it: a non-empty string. */
  predicate ContentPresent(content: JsValue) {
    Truthy(content) && content.Str?
  }

  /** The service's outcome as the send handler passes it on: 200 with the result, or rethrown. */
  function SendOutcome(r: Result<SendResult, AppError>): (o: Outcome) {
    match r
    case Ok(v) => Respond(200, SendBody(v))
    case Err(e) => Throw(App(e))
  }

  /** A failure once thrown: the stack is the runtime's; the database error has no status code and no details. */
  function Thrown(f: Failure, stack: Option<string>): (t: ThrownError)
    ensures f.App? ==> t == AsThrown(f.error, stack)
    ensures f.StorageFailure? ==> t.name == StorageErrorName && t.statusCode.None? && !Truthy(t.details)
  {
    match f
    case App(e) => AsThrown(e, stack)
    case StorageFailure(m) => ThrownError(StorageErrorName, m, None, stack, Undefined)
  }

  /**
   * The response the client receives for an outcome, under the given
   * `NODE_ENV`: a handler's own answer goes out as written; a thrown
   * `AppError` reaches the client through the error middleware with its own
   * status and message; the database client's error, which has no status,
   * is answered 500 with its own message.
   */
  function Serve(o: Outcome, stack: Option<string>, nodeEnv: string): (r: HttpResponse)
    ensures o.Respond? ==> r == HandlerResponse(o.status, o.body)
    ensures o.Throw? ==> r.MiddlewareResponse?
    ensures o.Throw? && o.failure.App? ==>
      r.status == o.failure.error.statusCode && r.errorBody.message == o.failure.error.message
    ensures o.Throw? && o.failure.StorageFailure? ==>
      r.status == 500 && r.errorBody.message == o.failure.message
  {
    match o
    case Respond(status, body) => HandlerResponse(status, body)
    case Throw(f) =>
      var h := ErrorMiddleware.Handle(Thrown(f, stack), nodeEnv);
      MiddlewareResponse(h.status, h.body)
  }

  /** `getSessions`: 200 with every session, newest-updated first. */
  method GetSessions(store: ChatStore) returns (o: Outcome)
    requires store.Valid()
    ensures o.Respond? && o.status == 200 && o.body.SessionList?
    ensures |o.body.sessions| == |store.sessions|
    ensures forall id :: id in store.sessions ==> store.sessions[id] in o.body.sessions
    ensures forall s :: s in o.body.sessions ==> s.id in store.sessions && store.sessions[s.id] == s
    ensures NewestFirst(o.body.sessions) && DistinctIds(o.body.sessions)
  {
    var sessions := store.GetSessions();
    assert forall s :: s in sessions ==> s.id in store.sessions && store.sessions[s.id] == s by {
      forall s | s in sessions ensures s.id in store.sessions && store.sessions[s.id] == s {
        var i :| 0 <= i < |sessions| && sessions[i] == s;
      }
    }
    o := Respond(200, SessionList(sessions));
  }

  /** `createSession`: 201 with the new session, which the store now holds. */
  method CreateSession(store: ChatStore, newId: string) returns (o: Outcome)
    requires store.Valid() && newId !in store.sessions
    modifies store
    ensures store.Valid()
    ensures o == Respond(201, SessionBody(ChatSession(newId, DefaultTitle, old(store.clock), old(store.clock), [])))
    ensures store.sessions == old(store.sessions)[newId := o.body.session]
    ensures store.clock == old(store.clock) + 1
  {
    var session := store.CreateSession(newId);
    o := Respond(201, SessionBody(session));
  }

  /** `getSession`: a missing id is a BadRequest before the store is read; then 200 or the service's NotFound. */
  method GetSession(store: ChatStore, id: Option<string>) returns (o: Outcome)
    requires store.Valid()
    ensures IdMissing(id) ==> o == Throw(App(BadRequest(IdRequired)))
    ensures !IdMissing(id) && id.value in store.sessions ==> o == Respond(200, SessionBody(store.sessions[id.value]))
    ensures !IdMissing(id) && id.value !in store.sessions ==> o == Throw(App(NotFound(SessionNotFound)))
  {
    if IdMissing(id) {
      return Throw(App(BadRequest(IdRequired)));
    }
    var r := store.GetSession(id.value);
    match r
    case Ok(session) => o := Respond(200, SessionBody(session));
    case Err(e) => o := Throw(App(e));
  }

  /**
   * `deleteSession`: a missing id is a BadRequest; a stored session is
   * removed and 204 is sent with no body; an unknown id makes the database
   * client throw its own error, whose text is `dbMessage`.
   */
  method DeleteSession(store: ChatStore, id: Option<string>, dbMessage: string) returns (o: Outcome)
    requires store.Valid()
    modifies store
    ensures store.Valid() && store.clock == old(store.clock)
    ensures IdMissing(id) ==> o == Throw(App(BadRequest(IdRequired))) && store.sessions == old(store.sessions)
    ensures !IdMissing(id) && id.value in old(store.sessions) ==>
      o == Respond(204, NoBody) && store.sessions == old(store.sessions) - {id.value}
    ensures !IdMissing(id) && id.value !in old(store.sessions) ==>
      o == Throw(StorageFailure(dbMessage)) && store.sessions == old(store.sessions)
  {
    if IdMissing(id) {
      return Throw(App(BadRequest(IdRequired)));
    }
    var deleted := store.DeleteSession(id.value);
    if deleted {
      o := Respond(204, NoBody);
    } else {
      o := Throw(StorageFailure(dbMessage));
    }
  }

  /**
   * `sendMessage`: a missing id is a BadRequest; content that is not a
   * non-empty string is answered 400 `{error}` by the handler itself; in
   * neither case is the service called. Otherwise the service's result is
   * answered 200 or its error rethrown.
   */
  method SendMessage(
    store: ChatStore,
    id: Option<string>,
    content: JsValue,
    model: Option<string>,
    cfg: OpenRouter.GatewayConfig,
    fetch: OpenRouter.CompletionRequest -> OpenRouter.ProviderResponse)
    returns (o: Outcome)
    requires store.Valid()
    modifies store
    ensures store.Valid()
    ensures IdMissing(id) ==>
      o == Throw(App(BadRequest(IdRequired))) && store.sessions == old(store.sessions) && store.clock == old(store.clock)
    ensures !IdMissing(id) && !ContentPresent(content) ==>
      o == Respond(400, ErrorField(ContentRequired))
      && store.sessions == old(store.sessions) && store.clock == old(store.clock)
    ensures !IdMissing(id) && ContentPresent(content) && id.value !in old(store.sessions) ==>
      o == Throw(App(NotFound(SessionNotFound))) && store.sessions == old(store.sessions)
    ensures !IdMissing(id) && ContentPresent(content) && id.value in old(store.sessions) && IsBlank(content.s) ==>
      o == Throw(App(BadRequest(EmptyMessage))) && store.sessions == old(store.sessions)
    ensures !IdMissing(id) && ContentPresent(content) && id.value in old(store.sessions)
            && !IsBlank(content.s) && |content.s| > MaxContentLength ==>
      o == Throw(App(BadRequest(MessageTooLong))) && store.sessions == old(store.sessions)
    ensures !IdMissing(id) && ContentPresent(content) && id.value in old(store.sessions)
            && !IsBlank(content.s) && |content.s| <= MaxContentLength ==>
      var before := old(store.sessions)[id.value];
      var reply := OpenRouter.ChatWithLlm(cfg, History(before.messages), model, fetch);
      var (after, result) := AcceptedSend(id.value, before, content.s, SendTitle(before, content.s), reply, old(store.clock));
      store.sessions == old(store.sessions)[id.value := after] && o == SendOutcome(result)
  {
    if IdMissing(id) {
      return Throw(App(BadRequest(IdRequired)));
    }
    if !ContentPresent(content) {
      return Respond(400, ErrorField(ContentRequired));
    }
    var r := store.SendMessage(id.value, content.s, model, cfg, fetch);
    o := SendOutcome(r);
  }

  /** A missing id reaches the client as 400 "Session ID is required", on every route that checks it. */
  lemma MissingIdIs400(stack: Option<string>, nodeEnv: string)
    ensures Serve(Throw(App(BadRequest(IdRequired))), stack, nodeEnv).status == 400
    ensures Serve(Throw(App(BadRequest(IdRequired))), stack, nodeEnv).errorBody.message == IdRequired
  {
  }

  /**
   * Whitespace-only content passes the handler's own check and, for a
   * stored session, is refused by the service: 400 "Message cannot be empty" through the middleware,
   * not the handler's `{error}` body.
   */
  lemma WhitespaceContentRefusedByService(content: string, stack: Option<string>, nodeEnv: string)
    requires content != "" && IsBlank(content)
    ensures ContentPresent(Str(content))
    ensures var r := Serve(Throw(App(BadRequest(EmptyMessage))), stack, nodeEnv);
            r.MiddlewareResponse? && r.status == 400 && r.errorBody.message == EmptyMessage
  {
  }
}
