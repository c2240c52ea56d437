/**
 * The chat service: sessions and their messages in a store, and the
 * send-message flow that validates the content, stores the user message,
 * asks the completion gateway for a reply, stores the reply and sets the
 * session title.
 *
 * The database is a `ChatStore` object holding a map from session id to the
 * session record with its messages. Its `clock` hands out increasing
 * timestamps (and message ids) in place of the database's `now()` and
 * generated ids; new session ids come from the caller.
 */
module ChatService {
  import opened Wrappers
  import opened Js
  import opened Exceptions
  import OpenRouter

  datatype Role = USER | ASSISTANT

  datatype Message = Message(id: nat, chatSessionId: string, role: Role, content: string, timestamp: nat)

  datatype ChatSession = ChatSession(id: string, title: string, createdAt: nat, updatedAt: nat, messages: seq<Message>)

  /** What a successful send returns. */
  datatype SendResult = SendResult(userMessage: Message, assistantMessage: Message, session: ChatSession)

  const DefaultTitle: string := "New Chat"
  const TitleLength: nat := 50
  const MaxContentLength: nat := 2000

  const SessionNotFound: string := "Chat session not found"
  const EmptyMessage: string := "Message cannot be empty"
  const MessageTooLong: string := "Message too long. Please keep it under 2000 characters."
  const AiFailure: string := "Failed to get response from AI"

  /**
   * `generateTitle`: newlines become spaces, the result is trimmed, and a
   * cleaned text longer than 50 code units is cut to 50 and marked `...`.
   */
  function GenerateTitle(message: string): (title: string)
    ensures var cleaned := Trim(ReplaceAll(message, '\n', ' '));
            && (|cleaned| <= TitleLength ==> title == cleaned)
            && (|cleaned| > TitleLength ==> title == cleaned[..TitleLength] + "...")
    ensures |title| <= TitleLength + 3
  {
    Ellipsize(Trim(ReplaceAll(message, '\n', ' ')), TitleLength)
  }

  /** A generated title never holds a newline. */
  lemma GenerateTitleHasNoNewline(message: string)
    ensures '\n' !in GenerateTitle(message)
  {
    var replaced := ReplaceAll(message, '\n', ' ');
    var cleaned := Trim(replaced);
    TrimKeepsCharacters(replaced, '\n');
    if |cleaned| > TitleLength {
      PrefixKeepsAbsence(cleaned, TitleLength, '\n');
    }
  }

  /** Content the service accepts (not blank) always yields a non-empty title. */
  lemma GenerateTitleNonEmpty(message: string)
    requires !IsBlank(message)
    ensures GenerateTitle(message) != ""
  {
    var replaced := ReplaceAll(message, '\n', ' ');
    var i :| 0 <= i < |message| && !IsWhitespace(message[i]);
    assert replaced[i] == message[i];
    TrimEmptyIffBlank(replaced);
  }

  /**
   * The content checks of `sendMessage`, in order: empty or whitespace-only
   * (`!content || content.trim().length === 0`), then longer than 2000 code
   * units. Exactly 2000 is accepted.
   */
  function ValidateContent(content: string): (e: Option<AppError>)
    ensures IsBlank(content) ==> e == Some(BadRequest(EmptyMessage))
    ensures !IsBlank(content) && |content| > MaxContentLength ==> e == Some(BadRequest(MessageTooLong))
    ensures !IsBlank(content) && |content| <= MaxContentLength ==> e.None?
  {
    TrimEmptyIffBlank(content);
    if content == "" || |Trim(content)| == 0 then Some(BadRequest(EmptyMessage))
    else if |content| > MaxContentLength then Some(BadRequest(MessageTooLong))
    else None
  }

  /** Timestamps strictly increase along a message list. */
  ghost predicate MessagesAscending(ms: seq<Message>) {
    forall i, j :: 0 <= i < j < |ms| ==> ms[i].timestamp < ms[j].timestamp
  }

  /** A stored session: keyed by its own id, its messages its own, in timestamp order, all older than `clock`. */
  ghost predicate SessionWellFormed(id: string, s: ChatSession, clock: nat) {
    && s.id == id
    && s.createdAt <= s.updatedAt < clock
    && MessagesAscending(s.messages)
    && forall m :: m in s.messages ==> m.chatSessionId == id && m.timestamp < clock
  }

  /** The history handed to the gateway: USER becomes `user`, ASSISTANT becomes `assistant`, contents unchanged. */
  function History(ms: seq<Message>): (h: seq<OpenRouter.ChatTurn>)
    ensures |h| == |ms|
  {
    seq(|ms|, i requires 0 <= i < |ms| =>
      OpenRouter.ChatTurn(if ms[i].role == USER then OpenRouter.User else OpenRouter.Assistant, ms[i].content))
  }

  /** Each history entry mirrors the stored message at the same position. */
  lemma HistoryMirrorsMessages(ms: seq<Message>, i: nat)
    requires i < |ms|
    ensures History(ms)[i].content == ms[i].content
    ensures History(ms)[i].role == OpenRouter.User <==> ms[i].role == USER
  {
  }

  /** The history of a longer list of messages begins with the history of its prefix. */
  lemma HistoryOfPrefix(before: seq<Message>, added: seq<Message>)
    ensures History(before + added)[..|before|] == History(before)
  {
    var h := History(before + added);
    forall i | 0 <= i < |before| ensures h[i] == History(before)[i] {
      assert (before + added)[i] == before[i];
    }
  }

  /** Sessions listed newest-updated first. */
  predicate NewestFirst(ss: seq<ChatSession>) {
    forall i, j :: 0 <= i < j < |ss| ==> ss[i].updatedAt >= ss[j].updatedAt
  }

  predicate DistinctIds(ss: seq<ChatSession>) {
    forall i, j :: 0 <= i < j < |ss| ==> ss[i].id != ss[j].id
  }

  /** Inserts a session into a newest-first list, before the first one not newer than it. */
  function InsertByRecency(ss: seq<ChatSession>, s: ChatSession): (r: seq<ChatSession>)
    ensures |r| == |ss| + 1
    ensures multiset(r) == multiset(ss) + multiset{s}
  {
    if ss == [] || ss[0].updatedAt <= s.updatedAt then [s] + ss
    else
      assert ss == [ss[0]] + ss[1..];
      [ss[0]] + InsertByRecency(ss[1..], s)
  }

  /** The sessions of the result are those of the list and the inserted one. */
  lemma InsertByRecencyMembers(ss: seq<ChatSession>, s: ChatSession)
    ensures forall x :: x in InsertByRecency(ss, s) <==> x in ss || x == s
  {
    var r := InsertByRecency(ss, s);
    assert forall x :: x in r <==> x in multiset(r);
    assert forall x :: x in ss <==> x in multiset(ss);
  }

  /** No session of the list was updated after `t`. */
  predicate UpdatedBy(ss: seq<ChatSession>, t: nat) {
    forall i :: 0 <= i < |ss| ==> ss[i].updatedAt <= t
  }

  /** No session of the list has the id. */
  predicate IdsAvoid(ss: seq<ChatSession>, id: string) {
    forall i :: 0 <= i < |ss| ==> ss[i].id != id
  }

  lemma {:induction false} InsertKeepsUpdatedBy(ss: seq<ChatSession>, s: ChatSession, t: nat)
    requires UpdatedBy(ss, t) && s.updatedAt <= t
    ensures UpdatedBy(InsertByRecency(ss, s), t)
    decreases |ss|
  {
    if ss != [] && ss[0].updatedAt > s.updatedAt {
      InsertKeepsUpdatedBy(ss[1..], s, t);
    }
  }

  lemma {:induction false} InsertKeepsIdsAvoid(ss: seq<ChatSession>, s: ChatSession, id: string)
    requires IdsAvoid(ss, id) && s.id != id
    ensures IdsAvoid(InsertByRecency(ss, s), id)
    decreases |ss|
  {
    if ss != [] && ss[0].updatedAt > s.updatedAt {
      InsertKeepsIdsAvoid(ss[1..], s, id);
    }
  }

  /** Inserting into a newest-first list keeps it newest-first. */
  lemma {:induction false} InsertByRecencySorted(ss: seq<ChatSession>, s: ChatSession)
    requires NewestFirst(ss)
    ensures NewestFirst(InsertByRecency(ss, s))
    decreases |ss|
  {
    if ss != [] && ss[0].updatedAt > s.updatedAt {
      var rest := InsertByRecency(ss[1..], s);
      InsertByRecencySorted(ss[1..], s);
      InsertKeepsUpdatedBy(ss[1..], s, ss[0].updatedAt);
      assert InsertByRecency(ss, s) == [ss[0]] + rest;
    }
  }

  /** Inserting a session whose id is not in a list of distinct ids keeps the ids distinct. */
  lemma {:induction false} InsertByRecencyDistinct(ss: seq<ChatSession>, s: ChatSession)
    requires DistinctIds(ss) && IdsAvoid(ss, s.id)
    ensures DistinctIds(InsertByRecency(ss, s))
    decreases |ss|
  {
    if ss == [] || ss[0].updatedAt <= s.updatedAt {
      assert InsertByRecency(ss, s) == [s] + ss;
    } else {
      var rest := InsertByRecency(ss[1..], s);
      InsertByRecencyDistinct(ss[1..], s);
      InsertKeepsIdsAvoid(ss[1..], s, ss[0].id);
      assert InsertByRecency(ss, s) == [ss[0]] + rest;
    }
  }

  /** The title a send stores: generated from the content for a session without messages, kept otherwise. */
  function SendTitle(before: ChatSession, content: string): (t: string) {
    if before.messages == [] then GenerateTitle(content) else before.title
  }

  /**
   * An accepted send, for the session as stored before it and the clock
   * reading at its start: the session afterwards and what the send returns.
   * The USER message is stored first; a gateway failure stops there with
   * BadRequest; a reply adds the ASSISTANT message and sets the title, which
   * bumps `updatedAt`.
   */
  function AcceptedSend(
    sessionId: string, before: ChatSession, content: string, title: string,
    reply: Result<string, OpenRouter.GatewayError>, clock: nat): (r: (ChatSession, Result<SendResult, AppError>))
  {
    var user := Message(clock, sessionId, USER, content, clock);
    match reply
    case Err(_) => (before.(messages := before.messages + [user]), Err(BadRequest(AiFailure)))
    case Ok(text) =>
      var assistant := Message(clock + 1, sessionId, ASSISTANT, text, clock + 1);
      var after := before.(messages := before.messages + [user, assistant], title := title, updatedAt := clock + 2);
      (after, Ok(SendResult(user, assistant, after)))
  }

  /**
   * What an accepted send does to its session: the messages grow by the USER
   * message with the content, newer than every earlier one, and, on a reply,
   * the ASSISTANT message with the reply text after it; the earlier messages
   * stay in place. A failure answers "Failed to get response from AI" and
   * keeps title and `updatedAt`; a reply sets the given title and the result
   * returns both new messages and the session as it now is.
   */
  lemma AcceptedSendAppends(
    sessionId: string, before: ChatSession, content: string, title: string,
    reply: Result<string, OpenRouter.GatewayError>, clock: nat)
    requires forall m :: m in before.messages ==> m.timestamp < clock
    ensures var (after, r) := AcceptedSend(sessionId, before, content, title, reply, clock);
      var n := |before.messages|;
      && after.id == before.id && after.createdAt == before.createdAt
      && |after.messages| == n + (if reply.Ok? then 2 else 1)
      && after.messages[..n] == before.messages
      && after.messages[n].role == USER
      && after.messages[n].content == content
      && (forall m :: m in before.messages ==> m.timestamp < after.messages[n].timestamp)
      && (reply.Err? ==>
            && r == Err(BadRequest(AiFailure))
            && after.title == before.title
            && after.updatedAt == before.updatedAt)
      && (reply.Ok? ==>
            && r.Ok?
            && r.value.userMessage == after.messages[n]
            && r.value.assistantMessage == after.messages[n + 1]
            && r.value.assistantMessage.role == ASSISTANT
            && r.value.assistantMessage.content == reply.value
            && r.value.userMessage.timestamp < r.value.assistantMessage.timestamp
            && after.title == title
            && r.value.session == after)
  {
    var (after, r) := AcceptedSend(sessionId, before, content, title, reply, clock);
    assert after.messages[..|before.messages|] == before.messages;
  }

  /**
   * The gateway is asked with the history of the messages stored BEFORE the
   * send: after it, the stored history runs on past what was sent, and the
   * entry right after is the new USER message with the content, which the
   * gateway therefore never received.
   */
  lemma HistoryExcludesNewMessage(
    sessionId: string, before: ChatSession, content: string, title: string,
    reply: Result<string, OpenRouter.GatewayError>, clock: nat)
    ensures var (after, _) := AcceptedSend(sessionId, before, content, title, reply, clock);
      var sent := History(before.messages);
      && |sent| < |History(after.messages)|
      && History(after.messages)[..|sent|] == sent
      && History(after.messages)[|sent|] == OpenRouter.ChatTurn(OpenRouter.User, content)
  {
    var (after, _) := AcceptedSend(sessionId, before, content, title, reply, clock);
    HistoryOfPrefix(before.messages, after.messages[|before.messages|..]);
    assert before.messages + after.messages[|before.messages|..] == after.messages;
  }

  /**
   * So a session's first message is sent to the gateway with the system
   * prompt alone: the request holds no history entry at all.
   */
  lemma FirstSendSeesOnlySystemPrompt(cfg: OpenRouter.GatewayConfig, before: ChatSession, model: Option<string>)
    requires before.messages == []
    ensures OpenRouter.BuildRequest(cfg, History(before.messages), model).messages == [OpenRouter.SystemMessage()]
  {
    var req := OpenRouter.BuildRequest(cfg, History(before.messages), model);
    assert |req.messages| == 1;
  }

  /**
   * A session whose first send fails keeps "New Chat" for good: the USER
   * message stays stored, so the next send, accepted or not, no longer
   * counts as the first and keeps the title.
   */
  lemma FailedFirstSendKeepsDefaultTitle(
    sessionId: string, before: ChatSession,
    first: string, failure: OpenRouter.GatewayError, clock: nat,
    next: string, reply: Result<string, OpenRouter.GatewayError>, later: nat)
    requires before.messages == [] && before.title == DefaultTitle
    ensures var (mid, r1) := AcceptedSend(sessionId, before, first, SendTitle(before, first), Err(failure), clock);
            var (after, _) := AcceptedSend(sessionId, mid, next, SendTitle(mid, next), reply, later);
            && r1.Err? && mid.messages != [] && mid.title == DefaultTitle
            && after.title == DefaultTitle
  {
  }

  class ChatStore {
    var sessions: map<string, ChatSession>
    var clock: nat

    ghost predicate Valid()
      reads this
    {
      forall id {:trigger SessionWellFormed(id, sessions[id], clock)} :: id in sessions ==> SessionWellFormed(id, sessions[id], clock)
    }

    /** The store's invariant at one stored id. */
    lemma Stored(id: string)
      requires Valid() && id in sessions
      ensures SessionWellFormed(id, sessions[id], clock)
    {
    }

    constructor ()
      ensures Valid() && sessions == map[] && clock == 0
    {
      sessions := map[];
      clock := 0;
    }

    /** `createSession`: one new session titled "New Chat" with no messages; every other session unchanged. */
    method CreateSession(newId: string) returns (session: ChatSession)
      requires Valid() && newId !in sessions
      modifies this
      ensures Valid()
      ensures session == ChatSession(newId, DefaultTitle, old(clock), old(clock), [])
      ensures sessions == old(sessions)[newId := session]
      ensures clock == old(clock) + 1
    {
      session := ChatSession(newId, DefaultTitle, clock, clock, []);
      sessions := sessions[newId := session];
      clock := clock + 1;
      forall id | id in sessions
        ensures SessionWellFormed(id, sessions[id], clock)
      {
        if id != newId {
          assert SessionWellFormed(id, old(sessions)[id], old(clock));
        }
      }
    }

    /** `getSession`: the stored session with its messages in timestamp order, or NotFound. */
    method GetSession(id: string) returns (r: Result<ChatSession, AppError>)
      requires Valid()
      ensures id in sessions ==> r == Ok(sessions[id])
      ensures id !in sessions ==> r == Err(NotFound(SessionNotFound))
      ensures r.Ok? ==> r.value.id == id && MessagesAscending(r.value.messages)
    {
      if id !in sessions {
        return Err(NotFound(SessionNotFound));
      }
      Stored(id);
      r := Ok(sessions[id]);
    }

    /**
     * `getSessions`: every stored session exactly once, newest-updated first,
     * each with its messages in timestamp order.
     */
    method GetSessions() returns (r: seq<ChatSession>)
      requires Valid()
      ensures |r| == |sessions|
      ensures forall i :: 0 <= i < |r| ==> r[i].id in sessions && sessions[r[i].id] == r[i]
      ensures forall id :: id in sessions ==> sessions[id] in r
      ensures DistinctIds(r)
      ensures NewestFirst(r)
      ensures forall i :: 0 <= i < |r| ==> MessagesAscending(r[i].messages)
    {
      r := [];
      var remaining := sessions.Keys;
      while remaining != {}
        invariant remaining <= sessions.Keys
        invariant |r| + |remaining| == |sessions|
        invariant forall x :: x in r ==> x.id in sessions && x.id !in remaining && sessions[x.id] == x
        invariant forall id :: id in sessions && id !in remaining ==> sessions[id] in r
        invariant DistinctIds(r)
        invariant NewestFirst(r)
        invariant forall x :: x in r ==> MessagesAscending(x.messages)
        decreases remaining
      {
        var id :| id in remaining;
        var s := sessions[id];
        Stored(id);
        assert IdsAvoid(r, s.id) by {
          forall i | 0 <= i < |r| ensures r[i].id != s.id {
            assert r[i] in r;
          }
        }
        InsertByRecencySorted(r, s);
        InsertByRecencyDistinct(r, s);
        InsertByRecencyMembers(r, s);
        r := InsertByRecency(r, s);
        remaining := remaining - {id};
      }
    }

    /**
     * `deleteSession`: removes the session and its messages. The database
     * refuses to delete an unknown id; that failure is `deleted == false`
     * and leaves the store as it was.
     */
    method DeleteSession(id: string) returns (deleted: bool)
      requires Valid()
      modifies this
      ensures Valid()
      ensures deleted <==> id in old(sessions)
      ensures sessions == old(sessions) - {id}
      ensures clock == old(clock)
    {
      deleted := id in sessions;
      if deleted {
        sessions := sessions - {id};
      }
    }

    /** `prisma.message.create`: appends one message, stamped with the clock, to a stored session. */
    method CreateMessage(sessionId: string, role: Role, content: string) returns (m: Message)
      requires Valid() && sessionId in sessions
      modifies this
      ensures Valid()
      ensures m == Message(old(clock), sessionId, role, content, old(clock))
      ensures sessions == old(sessions)[sessionId := old(sessions)[sessionId].(messages := old(sessions)[sessionId].messages + [m])]
      ensures clock == old(clock) + 1
    {
      m := Message(clock, sessionId, role, content, clock);
      var s := sessions[sessionId];
      Stored(sessionId);
      sessions := sessions[sessionId := s.(messages := s.messages + [m])];
      clock := clock + 1;
      forall id | id in sessions
        ensures SessionWellFormed(id, sessions[id], clock)
      {
        if id != sessionId {
          assert SessionWellFormed(id, old(sessions)[id], old(clock));
        }
      }
    }

    /** `prisma.chatSession.update`: sets the title; the database bumps `updatedAt`. */
    method UpdateTitle(sessionId: string, title: string) returns (updated: ChatSession)
      requires Valid() && sessionId in sessions
      modifies this
      ensures Valid()
      ensures updated == old(sessions)[sessionId].(title := title, updatedAt := old(clock))
      ensures sessions == old(sessions)[sessionId := updated]
      ensures clock == old(clock) + 1
    {
      Stored(sessionId);
      updated := sessions[sessionId].(title := title, updatedAt := clock);
      sessions := sessions[sessionId := updated];
      clock := clock + 1;
      forall id | id in sessions
        ensures SessionWellFormed(id, sessions[id], clock)
      {
        if id != sessionId {
          assert SessionWellFormed(id, old(sessions)[id], old(clock));
        }
      }
    }

    /**
     * The writes of an accepted send: the USER message, the gateway call on
     * the history stored before it, then (on a reply) the ASSISTANT message
     * and the given title.
     */
    method Exchange(
      sessionId: string,
      content: string,
      title: string,
      model: Option<string>,
      cfg: OpenRouter.GatewayConfig,
      fetch: OpenRouter.CompletionRequest -> OpenRouter.ProviderResponse)
      returns (r: Result<SendResult, AppError>)
      requires Valid() && sessionId in sessions
      modifies this
      ensures Valid()
      ensures var reply := OpenRouter.ChatWithLlm(cfg, History(old(sessions)[sessionId].messages), model, fetch);
        var (after, result) := AcceptedSend(sessionId, old(sessions)[sessionId], content, title, reply, old(clock));
        && sessions == old(sessions)[sessionId := after]
        && r == result
        && clock == old(clock) + (if reply.Ok? then 3 else 1)
    {
      var session := sessions[sessionId];
      var userMessage := CreateMessage(sessionId, USER, content);

      var messageHistory := History(session.messages);
      var aiResponse := OpenRouter.ChatWithLlm(cfg, messageHistory, model, fetch);
      if aiResponse.Err? {
        return Err(BadRequest(AiFailure));
      }

      var assistantMessage := CreateMessage(sessionId, ASSISTANT, aiResponse.value);
      assert session.messages + [userMessage] + [assistantMessage] == session.messages + [userMessage, assistantMessage];
      var updatedSession := UpdateTitle(sessionId, title);
      assert sessions == old(sessions)[sessionId := updatedSession];
      r := Ok(SendResult(userMessage, assistantMessage, updatedSession));
    }

    /**
     * `sendMessage(sessionId, content, model)`, with the gateway's
     * configuration and the network call as parameters.
     *
     * Checks in order: unknown session (NotFound), blank content, content
     * over 2000 code units (BadRequest); none of them writes anything. Then
     * the USER message is stored, the gateway is called with the history of
     * the messages stored BEFORE this send, and a gateway failure ends in
     * BadRequest with the USER message left stored. Otherwise the ASSISTANT
     * message is stored and the title is set: generated from the content
     * when the session had no messages, kept otherwise. No other session
     * changes.
     */
    method SendMessage(
      sessionId: string,
      content: string,
      model: Option<string>,
      cfg: OpenRouter.GatewayConfig,
      fetch: OpenRouter.CompletionRequest -> OpenRouter.ProviderResponse)
      returns (r: Result<SendResult, AppError>)
      requires Valid()
      modifies this
      ensures Valid()
      ensures sessionId !in old(sessions) ==>
        r == Err(NotFound(SessionNotFound)) && sessions == old(sessions) && clock == old(clock)
      ensures sessionId in old(sessions) && IsBlank(content) ==>
        r == Err(BadRequest(EmptyMessage)) && sessions == old(sessions) && clock == old(clock)
      ensures sessionId in old(sessions) && !IsBlank(content) && |content| > MaxContentLength ==>
        r == Err(BadRequest(MessageTooLong)) && sessions == old(sessions) && clock == old(clock)
      ensures sessionId in old(sessions) && !IsBlank(content) && |content| <= MaxContentLength ==>
        var before := old(sessions)[sessionId];
        var reply := OpenRouter.ChatWithLlm(cfg, History(before.messages), model, fetch);
        var (after, result) := AcceptedSend(sessionId, before, content, SendTitle(before, content), reply, old(clock));
        && sessions == old(sessions)[sessionId := after]
        && r == result
        && clock == old(clock) + (if reply.Ok? then 3 else 1)
    {
      if sessionId !in sessions {
        return Err(NotFound(SessionNotFound));
      }
      var session := sessions[sessionId];

      var invalid := ValidateContent(content);
      if invalid.Some? {
        return Err(invalid.value);
      }

      var title := if |session.messages| == 0 then GenerateTitle(content) else session.title;
      r := Exchange(sessionId, content, title, model, cfg, fetch);
    }
  }
}
