/**
 * The session and message records as the browser client holds them (the
 * JSON the server sends, with ids as strings and dates as millisecond
 * counts), and the label both the sidebar and the chat header show for a
 * session.
 */
module ClientChat {
  import opened Js

  datatype ClientRole = USER | ASSISTANT

  datatype ClientMessage = ClientMessage(id: string, role: ClientRole, content: string, timestamp: int)

  datatype ClientSession = ClientSession(
    id: string,
    title: string,
    createdAt: int,
    updatedAt: int,
    messages: seq<ClientMessage>)

  const NewMessageLabel: string := "New Message"
  const LabelLength: nat := 20

  /**
   * `getSessionTitle`: "New Message" for a session without messages,
   * otherwise its first message's content, cut to 20 code units and marked
   * `...` when longer.
   */
  function SessionTitle(s: ClientSession): (t: string)
    ensures s.messages == [] ==> t == NewMessageLabel
    ensures s.messages != [] ==>
      var first := s.messages[0].content;
      && (|first| <= LabelLength ==> t == first)
      && (|first| > LabelLength ==> t == first[..LabelLength] + "...")
  {
    if |s.messages| > 0 then Ellipsize(s.messages[0].content, LabelLength) else NewMessageLabel
  }

  /** The label never reads the session's stored `title`. */
  lemma SessionTitleIgnoresTitleField(s: ClientSession, title: string)
    ensures SessionTitle(s.(title := title)) == SessionTitle(s)
  {
  }

  /** Messages added after the first never change the label. */
  lemma SessionTitleFixedByFirstMessage(s: ClientSession, later: seq<ClientMessage>)
    requires s.messages != []
    ensures SessionTitle(s.(messages := s.messages + later)) == SessionTitle(s)
  {
    assert (s.messages + later)[0] == s.messages[0];
  }

  /**
   * The label is at most 23 code units, and whatever it shows of the first
   * message is that message's beginning.
   */
  lemma SessionTitleIsPrefixOfFirstMessage(s: ClientSession)
    requires s.messages != []
    ensures |SessionTitle(s)| <= LabelLength + 3
    ensures var first := s.messages[0].content;
            var n := if |first| <= LabelLength then |first| else LabelLength;
            SessionTitle(s)[..n] == first[..n]
  {
  }
}
