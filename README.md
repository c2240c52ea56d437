# Spurs_work chat core in Dafny

This project models the core of a small support-chat application: an
Express server that keeps chat sessions and their messages, stores each
user message, sends the session's earlier messages (not the new one) after
a store-policy system prompt to the OpenRouter chat-completions endpoint,
and stores the reply; and a
React client whose sidebar and chat page keep a query cache of those
sessions.

The model has one module per source component:

- `Js` (js.dfy) states the JavaScript built-ins the code relies on, over
  characters, which match JavaScript's UTF-16 code units for text without
  characters above U+FFFF: `trim`, `replace(/\n/g, ' ')`, the `substring + '...'`
  truncation, `slice` with a negative start, `String(n)`, and truthiness.
- `Exceptions` (exceptions.dfy) holds the `AppError` hierarchy. Each
  subclass becomes a kind with its status and default message.
- `ErrorMiddleware` (error_middleware.dfy) is the error handler, a function
  from a thrown error and `NODE_ENV` to a status and a JSON body.
- `OpenRouter` (openrouter.dfy) covers `chatWithLLM`: building the request
  and extracting the reply. The HTTP call is a function parameter `fetch`.
- `ChatService` (chat_service.dfy) covers `generateTitle` and `chatService`.
  The database is the class `ChatStore`, a map from session id to session
  with a clock for timestamps. `SendMessage` is proved against the
  function `AcceptedSend`, which gives the session after an accepted send.
- `ChatController` (chat_controller.dfy) holds the route handlers, with
  their status codes and early exits. `Serve` composes a handler's outcome
  with the error middleware into what the client receives.
- `ClientChat` (client_chat.dfy) holds the client's session records and
  `getSessionTitle`. Its two identical copies in the sidebar and the chat
  page are one function here.
- `Sidebar` (sidebar.dfy) covers the active-link test and the
  create/delete cache updaters with their navigation.
- `ChatView` (chat_view.dfy) is the chat page. The class `ChatViewState`
  holds the input box, the in-flight flag, the cache entry and the rollback
  snapshot. It sits beside the pure send guard, the optimistic append, the
  rollback and the length counter.

Some behaviours of the code are easy to miss; the model states each one:

- Deleting an unknown session answers 500, not 404. The handler lets the
  database client's error through, and that error has no status code, so
  the error middleware falls back to 500 (`ChatController.Serve`).
- No `AppError` subclass sets `name`, so every error the app throws is
  named `Error`. The middleware's `NotFoundError`-by-name branch therefore
  never replaces the app's own errors, and a thrown
  `NotFoundError('Chat session not found')` keeps its message
  (`ErrorMiddleware.AppErrorKeepsStatusAndMessage`).
- The gateway never receives the message being sent. The session is loaded
  before the USER message is stored, and only the earlier messages become
  the history (`ChatService.HistoryExcludesNewMessage`). A session's first
  message is therefore answered on the system prompt alone
  (`ChatService.FirstSendSeesOnlySystemPrompt`).
- A session whose first send fails keeps the title "New Chat" for good.
  The USER message stays stored, so no later send counts as the first
  (`ChatService.FailedFirstSendKeepsDefaultTitle`).

## Model

| member | source | states |
|---|---|---|
| Js.TrimmedStart | server/src/services/chat.service.ts:7 | where `trim()` starts: everything skipped is whitespace, and it stops at the first code unit that is not |
| Js.TrimmedEnd | server/src/services/chat.service.ts:7 | where `trim()` ends: everything cut off is whitespace, and it stops just past the last code unit that is not |
| Js.Trim | server/src/services/chat.service.ts:7 | `trim()` gives an infix of the input; everything stripped before and after it is whitespace; when non-empty it starts and ends with non-whitespace |
| Js.TrimEmptyIffBlank | server/src/services/chat.service.ts:70 | `trim()` is empty exactly when every code unit is whitespace |
| Js.TrimKeepsCharacters | server/src/services/chat.service.ts:7 | trimming only keeps code units that were in the input |
| Js.ReplaceAll | server/src/services/chat.service.ts:7 | global one-character replace keeps the length, changes exactly the matching positions, and leaves no occurrence of the pattern |
| Js.Ellipsize | server/src/services/chat.service.ts:8 | inputs up to n code units are kept; longer ones become their first n code units plus `...`; never longer than n + 3 |
| Js.SliceFromNegative | server/src/services/openrouter.service.ts:25 | `slice(-k)` for k >= 1 keeps the last min(k, length) elements |
| Js.SliceFromZero | server/src/services/openrouter.service.ts:21-25 | `slice(-0)` keeps the whole sequence |
| Js.SliceFromNonNegative | server/src/services/openrouter.service.ts:25 | `slice(k)` for k >= 0 drops the first min(k, length) elements |
| Js.NumberToString | server/src/services/openrouter.service.ts:50 | `String(n)` is non-empty decimal digits without a leading zero |
| Js.NumberToStringRoundTrip | server/src/services/openrouter.service.ts:50 | reading the digits of `String(n)` back gives n |
| Exceptions.StatusOf | server/src/exceptions/BadRequestError.ts:7 | each subclass passes its fixed status (400, 404, 403, 401, 500), always a 4xx/5xx code |
| Exceptions.StatusIdentifiesKind | server/src/exceptions/NotFoundError.ts:7 | two subclasses with the same status are the same subclass |
| Exceptions.Raise | server/src/exceptions/NotFoundError.ts:5-9 | a subclass instance has its subclass's status, the given message or else the default (`??`), and no details |
| Exceptions.AsThrown | server/src/exceptions/AppError.ts:1-10 | a thrown AppError is named `Error`, so neither name the middleware replaces; its status, message and details read back from the thrown value, so nothing is lost |
| ErrorMiddleware.Reported | server/src/middlewares/error.middleware.ts:9-17 | a SyntaxError is replaced by a 500 "Unexpected Syntax"; an error named NotFoundError by a 404 with the default message; anything else is kept |
| ErrorMiddleware.Handle | server/src/middlewares/error.middleware.ts:8-33 | status is the reported error's statusCode or else 500; message comes from the reported error; stack is present iff development and the original has one; details are present iff the original's are truthy, and come from the original |
| ErrorMiddleware.SyntaxErrorIs500 | server/src/middlewares/error.middleware.ts:11-13 | a SyntaxError answers 500 "Unexpected Syntax" |
| ErrorMiddleware.NotFoundByNameIs404 | server/src/middlewares/error.middleware.ts:15-17 | an error named NotFoundError answers 404 "Not Found"; its own message is dropped |
| ErrorMiddleware.AppErrorKeepsStatusAndMessage | server/src/middlewares/error.middleware.ts:15-32 | every AppError the app throws answers with its own status and message |
| ErrorMiddleware.UnknownErrorIs500 | server/src/middlewares/error.middleware.ts:32 | an error without a status that is not replaced answers 500 with its own message |
| OpenRouter.SelectModel | server/src/services/openrouter.service.ts:19 | a non-empty model argument is used; a missing or empty one gives the default model |
| OpenRouter.ToOutgoing | server/src/services/openrouter.service.ts:25-28 | content is copied; `user` stays `user`; every other role becomes `assistant` |
| OpenRouter.BuildMessages | server/src/services/openrouter.service.ts:23-29 | exactly one system message, first; after it the last entries of the history in order; min(limit, length) of them for a limit >= 1, all of them for a limit of 0 |
| OpenRouter.NegativeLimitDropsOldest | server/src/services/openrouter.service.ts:25 | a negative limit drops the oldest entries instead |
| OpenRouter.BuildRequest | server/src/services/openrouter.service.ts:19-45 | the model is never empty and is the caller's when one is given; the token limit is the configured one; the messages open with the system prompt and, for a limit >= 1, hold at most limit + 1 messages |
| OpenRouter.DefaultLimits | server/src/services/openrouter.service.ts:20-29 | with the environment variables unset, at most 1000 tokens are asked for and the last 50 history entries (all of a shorter history) follow the system prompt |
| OpenRouter.ApiErrorMessageCarriesStatusAndBody | server/src/services/openrouter.service.ts:48-51 | a non-ok response's error message holds the status, readable back from its digits, and ends with the response text |
| OpenRouter.ExtractReply | server/src/services/openrouter.service.ts:53-54 | the reply is the first choice's content; "" for no choices or null content; fails when `choices` or the first `message` is missing |
| OpenRouter.ChatWithLlm | server/src/services/openrouter.service.ts:12-55 | without a key it fails with MissingApiKey; a non-ok status fails with the status and text; otherwise the reply is extracted |
| OpenRouter.MissingKeyMakesNoRequest | server/src/services/openrouter.service.ts:13-17 | without a key the outcome does not depend on the network |
| ChatService.GenerateTitle | server/src/services/chat.service.ts:6-9 | the cleaned text (newlines as spaces, trimmed) when it has at most 50 code units, else its first 50 plus `...`; never longer than 53 |
| ChatService.GenerateTitleHasNoNewline | server/src/services/chat.service.ts:6-9 | a generated title holds no newline |
| ChatService.GenerateTitleNonEmpty | server/src/services/chat.service.ts:6-9 | content that is not blank gives a non-empty title |
| ChatService.ValidateContent | server/src/services/chat.service.ts:70-76 | blank content is "Message cannot be empty"; otherwise over 2000 code units is "Message too long..."; exactly 2000 passes |
| ChatService.History | server/src/services/chat.service.ts:89-92 | one history entry per stored message |
| ChatService.HistoryMirrorsMessages | server/src/services/chat.service.ts:89-92 | each entry has the message's content; the role is `user` iff the message is USER |
| ChatService.HistoryExcludesNewMessage | server/src/services/chat.service.ts:59-98 | the history sent is a strict prefix of the session's history after the send, and the entry right after it is the new USER message, which the gateway never received |
| ChatService.FirstSendSeesOnlySystemPrompt | server/src/services/chat.service.ts:78-98 | for a session without messages the request holds the system prompt and nothing else |
| ChatService.FailedFirstSendKeepsDefaultTitle | server/src/services/chat.service.ts:78-101 | when the first send fails the session keeps "New Chat" with the USER message stored, and the next send, failed or not, keeps "New Chat" too |
| ChatService.InsertByRecency | server/src/services/chat.service.ts:12-21 | one insertion step of the `updatedAt desc` ordering: the result is the list plus exactly the inserted session, as a multiset |
| ChatService.InsertByRecencyMembers | server/src/services/chat.service.ts:12-21 | the sessions of the result are those of the list and the inserted one |
| ChatService.InsertKeepsUpdatedBy | server/src/services/chat.service.ts:12-21 | inserting a session updated no later than t keeps every session updated no later than t |
| ChatService.InsertKeepsIdsAvoid | server/src/services/chat.service.ts:12-21 | inserting a session with another id keeps an id absent from the list |
| ChatService.InsertByRecencySorted | server/src/services/chat.service.ts:12-21 | inserting into a newest-updated-first list keeps it newest-updated first |
| ChatService.InsertByRecencyDistinct | server/src/services/chat.service.ts:12-21 | inserting a session whose id is new keeps the ids distinct |
| ChatService.AcceptedSendAppends | server/src/services/chat.service.ts:81-125 | an accepted send keeps the earlier messages in place and appends the USER message with the content, newer than all of them; a gateway failure answers "Failed to get response from AI" and keeps title and updatedAt; a reply appends the ASSISTANT message with the reply text, sets the title and returns both messages and the new session |
| ChatService.ChatStore.CreateSession | server/src/services/chat.service.ts:23-33 | adds exactly one session, "New Chat" with no messages, under the new id; others unchanged |
| ChatService.ChatStore.GetSession | server/src/services/chat.service.ts:35-50 | the stored session with messages in timestamp order, or NotFound "Chat session not found" |
| ChatService.ChatStore.GetSessions | server/src/services/chat.service.ts:12-21 | every stored session once, newest-updated first, each with messages in timestamp order |
| ChatService.ChatStore.DeleteSession | server/src/services/chat.service.ts:52-56 | a stored session is removed with its messages; an unknown id fails and changes nothing |
| ChatService.ChatStore.CreateMessage | server/src/services/chat.service.ts:81-87 | appends one message, newer than every stored one, to the session |
| ChatService.ChatStore.UpdateTitle | server/src/services/chat.service.ts:111-119 | sets the title and bumps updatedAt; the messages stay |
| ChatService.ChatStore.Exchange | server/src/services/chat.service.ts:81-125 | the session becomes the one `AcceptedSend` gives for the gateway's answer on the history stored before the send, and that is the result; no other session changes; the store stays well formed |
| ChatService.ChatStore.SendMessage | server/src/services/chat.service.ts:58-126 | NotFound before the content checks, the content checks before any write; an accepted send grows the session by two messages (USER then ASSISTANT) on success or one on gateway failure; the title is generated only for a session without messages; no other session changes |
| ChatController.Thrown | server/src/controllers/chat.controller.ts:33 | a thrown AppError keeps its status; the database client's error has none and no details |
| ChatController.Serve | server/src/middlewares/error.middleware.ts:8-33 | a handler's own answer is sent as written; a thrown AppError reaches the client with its own status and message; the database client's error (an unknown id on delete) is answered 500 with its own message |
| ChatController.GetSessions | server/src/controllers/chat.controller.ts:9-12 | 200 with every stored session once, newest-updated first |
| ChatController.CreateSession | server/src/controllers/chat.controller.ts:14-17 | 201 with the new session, which the store now holds |
| ChatController.GetSession | server/src/controllers/chat.controller.ts:19-26 | missing id is BadRequest "Session ID is required"; else 200 with the session, or NotFound |
| ChatController.DeleteSession | server/src/controllers/chat.controller.ts:28-35 | missing id is BadRequest with the store unchanged; a stored session is removed and 204 with no body is sent; an unknown id throws the database error |
| ChatController.SendMessage | server/src/controllers/chat.controller.ts:37-54 | missing id is BadRequest; content that is not a non-empty string is answered 400 `{error: "Message content is required"}` by the handler; in neither case does the store change; otherwise the service's result is answered 200 or rethrown |
| ChatController.MissingIdIs400 | server/src/controllers/chat.controller.ts:20-23 | a missing id reaches the client as 400 "Session ID is required" |
| ChatController.WhitespaceContentRefusedByService | server/src/controllers/chat.controller.ts:47-50 | for a stored session, whitespace-only content passes the handler's check and comes back as 400 "Message cannot be empty" from the service (an unknown id answers NotFound first) |
| ClientChat.SessionTitle | client/src/components/sidebar.tsx:9-15 | "New Message" for a session without messages; else the first message's content, cut to 20 code units plus `...` when longer (the chat header's copy at client/src/components/chat-view.tsx:10-16 is the same rule) |
| ClientChat.SessionTitleIgnoresTitleField | client/src/components/sidebar.tsx:10-13 | the label never depends on the session's stored title |
| ClientChat.SessionTitleFixedByFirstMessage | client/src/components/sidebar.tsx:10-13 | messages after the first never change the label |
| ClientChat.SessionTitleIsPrefixOfFirstMessage | client/src/components/sidebar.tsx:10-13 | the label is at most 23 code units and begins with the first message's beginning |
| Sidebar.ChatPath | client/src/components/sidebar.tsx:29 | a session's page path is `/chat/` followed by exactly its id |
| Sidebar.AtMostOneActive | client/src/components/sidebar.tsx:29 | a path highlights at most one session |
| Sidebar.HomeIsNeverActive | client/src/components/sidebar.tsx:54-56 | `/` is no session's page |
| Sidebar.PrependCreated | client/src/components/sidebar.tsx:39-41 | the created session comes first, then the old list in order; no cache counts as empty |
| Sidebar.WithoutSession | client/src/components/sidebar.tsx:52 | exactly the sessions with another id remain |
| Sidebar.RemoveDeleted | client/src/components/sidebar.tsx:51-53 | exactly the cached sessions with another id remain; no cache becomes `[]` |
| Sidebar.WithoutSessionDistributes | client/src/components/sidebar.tsx:52 | the filter works segment by segment, so the remaining sessions keep their order |
| Sidebar.WithoutAbsentIsIdentity | client/src/components/sidebar.tsx:52 | a list without the id is left exactly as it was |
| Sidebar.WithoutSessionIdempotent | client/src/components/sidebar.tsx:52 | filtering twice is filtering once |
| Sidebar.CreateThenDelete | client/src/components/sidebar.tsx:39-53 | deleting a just-created session undoes the create; with a new id the list is back to what it was |
| Sidebar.OnCreateSuccess | client/src/components/sidebar.tsx:38-45 | the new session heads the list and its page becomes the active one |
| Sidebar.OnDeleteSuccess | client/src/components/sidebar.tsx:50-57 | the session leaves the list; the app goes to `/` iff the deleted session's page was open |
| Sidebar.DeletingOtherSessionStays | client/src/components/sidebar.tsx:50-57 | deleting another session keeps the open page and the open session |
| ChatView.CanSendIffNotBlank | client/src/components/chat-view.tsx:76-77 | a send happens iff the input is not whitespace-only, there is a session id and no send is in flight |
| ChatView.TempId | client/src/components/chat-view.tsx:48 | the placeholder id is `temp-` followed by the clock reading, readable back |
| ChatView.OptimisticAppend | client/src/components/chat-view.tsx:41-55 | no cache stays no cache; otherwise exactly one USER message with the content is appended and nothing else changes |
| ChatView.RollbackUndoesOptimisticAppend | client/src/components/chat-view.tsx:39-61 | a failed send leaves the cache exactly as it was before the send |
| ChatView.OptimisticAppendKeepsLabel | client/src/components/chat-view.tsx:41-55 | the optimistic append never changes the label of a session that had messages |
| ChatView.CounterThresholds | client/src/components/chat-view.tsx:164-168 | the counter shows above 1600 code units (0.8 of 2000) and is flagged from 2000; a flagged counter is shown |
| ChatView.ChatViewState.constructor | client/src/components/chat-view.tsx:19-25 | the page starts with an empty input and no send in flight |
| ChatView.ChatViewState.HandleSend | client/src/components/chat-view.tsx:76-81 | when the guard holds, the untrimmed input is sent with the selected model and the box is cleared; otherwise nothing changes |
| ChatView.ChatViewState.OnMutate | client/src/components/chat-view.tsx:36-58 | the cache entry is snapshotted, then the placeholder message is appended |
| ChatView.ChatViewState.OnError | client/src/components/chat-view.tsx:59-61 | a present snapshot is written back and an absent one leaves the cache as it is (the `Rollback` of `RollbackUndoesOptimisticAppend`); the send is over |
| ChatView.ChatViewState.OnSuccess | client/src/components/chat-view.tsx:62-65 | the server's session replaces the cached one and the send is over |

## Left out

- The database itself is an in-memory map. Queries, cascades, database-generated ids and `now()` are not modelled. New session ids come from the caller. Timestamps and message ids come from a counter that only increases.
- ChatService.ChatStore.SendMessage: the model sends the stored messages in timestamp order. The source loads them without an `orderBy`, so their order in the history is whatever the database returns.
- The `fetch` to OpenRouter, its headers, JSON parsing beyond the shape of `choices`, and `console.log`. `parseInt` of the environment variables is also out: the limits are integer parameters, so a NaN limit is not modelled.
- OpenRouter.ChatWithLlm: a `model` in the request body that is not a string is not modelled; the argument is an optional string.
- Strings are sequences of Dafny characters (Unicode scalar values). They count as JavaScript's UTF-16 code units only for text without characters above U+FFFF; there a character is two code units in JavaScript and one here, so the 2000, 50 and 20 limits hold for such text only. Surrogate pairs and any Unicode processing beyond the whitespace list of `trim` are not modelled.
- Numbers are integers: `Date.now()` is a natural number, and NaN and fractional values are not modelled.
- Concurrent sends to the same session are not modelled: the source has no locking, and the model handles one request at a time.
- React Query mechanics are out: cancellation, invalidation, refetching, and when `isPending` changes relative to `onMutate`. A missing `onMutate` context on error is also out.
- The rendered JSX, the textarea's `maxLength` cap, the model store, the markdown message component and the client's fetch wrappers are not modelled.
- Express bootstrapping, routing, the zod validation middleware and the user controller (which always throws NotFound) are not modelled.
