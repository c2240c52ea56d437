/**
 * The chat page's send flow: the guard on the send button, the optimistic
 * append of the user's message to the cached session, the rollback when the
 * send fails, the replacement by the server's session when it succeeds, and
 * the length counter under the input box.
 *
 * The view's state is a `ChatViewState`: the route's session id, the text
 * in the input box, whether a send is in flight, the query-cache entry for
 * this session (`None` when nothing is cached) and the snapshot of that
 * entry taken when the send started.
 */
module ChatView {
  import opened Wrappers
  import opened Js
  import opened ClientChat

  const MaxLength: nat := 2000
  const TempIdPrefix: string := "temp-"

  /** What a send hands to the mutation: the content as typed and the selected model. */
  datatype SendRequest = SendRequest(content: string, model: string)

  /** The guard of `handleSend`: some non-whitespace input, a session id, and no send in flight. */
  predicate CanSend(input: string, sessionId: Option<string>, pending: bool) {
    Trim(input) != "" && sessionId.Some? && sessionId.value != "" && !pending
  }

  /** Whitespace-only input never sends; any other input does when a session is open and idle. */
  lemma CanSendIffNotBlank(input: string, sessionId: Option<string>, pending: bool)
    ensures CanSend(input, sessionId, pending) <==>
              !IsBlank(input) && sessionId.Some? && sessionId.value != "" && !pending
  {
    TrimEmptyIffBlank(input);
  }

  /** The id of the placeholder message: `temp-` followed by the clock reading in decimal. */
  function TempId(now: nat): (id: string)
    ensures |id| > |TempIdPrefix| && id[..|TempIdPrefix|] == TempIdPrefix
    ensures forall i :: |TempIdPrefix| <= i < |id| ==> IsDigit(id[i])
    ensures ParseDecimal(id[|TempIdPrefix|..]) == now
  {
    var digits := NumberToString(now);
    var id := TempIdPrefix + digits;
    assert id[|TempIdPrefix|..] == digits;
    NumberToStringRoundTrip(now);
    id
  }

  /**
   * The `onMutate` updater: an empty cache stays empty; a cached session
   * gets one USER message with the content at the end, and nothing else of
   * it changes.
   */
  function OptimisticAppend(cached: Option<ClientSession>, content: string, now: nat): (r: Option<ClientSession>)
    ensures r.None? <==> cached.None?
    ensures r.Some? ==>
      var before := cached.value.messages;
      && |r.value.messages| == |before| + 1
      && r.value.messages[..|before|] == before
      && r.value.messages[|before|].role == USER
      && r.value.messages[|before|].content == content
      && r.value.messages[|before|].id == TempId(now)
      && r.value.(messages := before) == cached.value
  {
    match cached
    case None => None
    case Some(s) =>
      var r := Some(s.(messages := s.messages + [ClientMessage(TempId(now), USER, content, now)]));
      assert r.value.messages[..|s.messages|] == s.messages;
      r
  }

  /**
   * The `onError` write of the snapshot: writing an undefined value leaves
   * the cache entry untouched, so only a snapshot that was present is put
   * back.
   */
  function Rollback(current: Option<ClientSession>, snapshot: Option<ClientSession>): (r: Option<ClientSession>)
    ensures snapshot.Some? ==> r == snapshot
    ensures snapshot.None? ==> r == current
  {
    if snapshot.Some? then snapshot else current
  }

  /** A failed send puts the cache back exactly as it was before the optimistic append. */
  lemma RollbackUndoesOptimisticAppend(cached: Option<ClientSession>, content: string, now: nat)
    ensures Rollback(OptimisticAppend(cached, content, now), cached) == cached
  {
  }

  /** The optimistic append never changes the label shown for a session that already had messages. */
  lemma OptimisticAppendKeepsLabel(cached: ClientSession, content: string, now: nat)
    requires cached.messages != []
    ensures SessionTitle(OptimisticAppend(Some(cached), content, now).value) == SessionTitle(cached)
  {
    var r := OptimisticAppend(Some(cached), content, now).value;
    assert r.messages[0] == cached.messages[0];
  }

  /** The counter shows once the input is longer than 0.8 of the limit. */
  predicate CounterVisible(input: string) {
    |input| * 10 > MaxLength * 8
  }

  /** The counter turns red at the limit. */
  predicate CounterAlert(input: string) {
    |input| >= MaxLength
  }

  /** The counter appears above 1600 code units, and a red counter is always a visible one. */
  lemma CounterThresholds(input: string)
    ensures CounterVisible(input) <==> |input| > 1600
    ensures CounterAlert(input) ==> CounterVisible(input)
  {
  }

  class ChatViewState {
    const sessionId: Option<string>
    var input: string
    var pending: bool
    var cache: Option<ClientSession>
    var snapshot: Option<ClientSession>

    /** The page as first shown: empty input, no send in flight. */
    constructor (sessionId: Option<string>, cached: Option<ClientSession>)
      ensures this.sessionId == sessionId && input == "" && !pending
      ensures cache == cached && snapshot.None?
    {
      this.sessionId := sessionId;
      input := "";
      pending := false;
      cache := cached;
      snapshot := None;
    }

    /**
     * `handleSend`: when the guard holds, the input is sent as typed (not
     * trimmed), the box is cleared and the send is in flight; otherwise
     * nothing happens.
     */
    method HandleSend(selectedModel: string) returns (sent: Option<SendRequest>)
      modifies this
      ensures CanSend(old(input), sessionId, old(pending)) ==>
        sent == Some(SendRequest(old(input), selectedModel)) && input == "" && pending
      ensures !CanSend(old(input), sessionId, old(pending)) ==>
        sent.None? && input == old(input) && pending == old(pending)
      ensures cache == old(cache) && snapshot == old(snapshot)
    {
      if !CanSend(input, sessionId, pending) {
        return None;
      }
      sent := Some(SendRequest(input, selectedModel));
      pending := true;
      input := "";
    }

    /** `onMutate`: snapshot the cached session, then append the placeholder message. */
    method OnMutate(content: string, now: nat)
      modifies this
      ensures snapshot == old(cache)
      ensures cache == OptimisticAppend(old(cache), content, now)
      ensures input == old(input) && pending == old(pending)
    {
      snapshot := cache;
      cache := OptimisticAppend(cache, content, now);
    }

    /**
     * `onError`: the snapshot is written back and the send is over; with no
     * snapshot, writing it is a no-op and the cache stays as it is.
     */
    method OnError()
      modifies this
      ensures cache == Rollback(old(cache), snapshot)
      ensures snapshot.Some? ==> cache == snapshot
      ensures snapshot.None? ==> cache == old(cache)
      ensures snapshot == old(snapshot) && input == old(input) && !pending
    {
      cache := Rollback(cache, snapshot);
      pending := false;
    }

    /** `onSuccess`: the server's session replaces the cached one and the send is over. */
    method OnSuccess(session: ClientSession)
      modifies this
      ensures cache == Some(session)
      ensures snapshot == old(snapshot) && input == old(input) && !pending
    {
      cache := Some(session);
      pending := false;
    }
  }
}
