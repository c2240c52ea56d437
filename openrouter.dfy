/**
 * The completion gateway: builds the request sent to the OpenRouter
 * chat-completions endpoint from a message history and extracts the reply
 * text from the provider's response. The HTTP call itself is the `fetch`
 * parameter, a function from the request to the response it receives.
 */
module OpenRouter {
  import opened Wrappers
  import opened Js

  /** The roles the chat service hands in: `'user' | 'assistant'`. */
  datatype TurnRole = User | Assistant

  /** One entry of the history handed in by the chat service. */
  datatype ChatTurn = ChatTurn(role: TurnRole, content: string)

  /** The roles of the outgoing message list. */
  datatype OutRole = SystemRole | UserRole | AssistantRole

  datatype OutMessage = OutMessage(role: OutRole, content: string)

  /**
   * The environment the gateway reads: `OPENROUTER_API_KEY`, and the already
   * parsed `MAX_TOKENS_PER_MESSAGE` and `MAX_MESSAGES_PER_SESSION`.
   */
  datatype GatewayConfig = GatewayConfig(apiKey: Option<string>, maxTokens: int, maxMessages: int)

  /** The JSON body POSTed to the endpoint: `{model, messages, max_tokens}`. */
  datatype CompletionRequest = CompletionRequest(model: string, messages: seq<OutMessage>, maxTokens: int)

  /** `choices[i].message`, whose `content` may be null. */
  datatype ChoiceMessage = ChoiceMessage(content: Option<string>)

  /** `choices[i]`, whose `message` may be missing. */
  datatype Choice = Choice(message: Option<ChoiceMessage>)

  /** The parsed response body; `choices` may be missing. */
  datatype CompletionBody = CompletionBody(choices: Option<seq<Choice>>)

  /**
   * What `fetch` resolves to: the HTTP status, the body as text, and the body
   * as a JSON object (`None` when `response.json()` would throw or yield a
   * non-object).
   */
  datatype ProviderResponse = ProviderResponse(status: nat, text: string, json: Option<CompletionBody>)

  /** Why `chatWithLLM` throws. */
  datatype GatewayError =
    | MissingApiKey
    | ApiError(message: string)
    | MalformedResponse  // a TypeError reading `choices[0]` or `.message.content`, or a JSON parse error

  /** The store-policy system instruction prepended to every request. */
  const StoreKnowledge: string :=
    "\nYou are a helpful support agent for \"Spurify\" - a fictional e-commerce store.\n\n"
    + "STORE POLICIES:\n"
    + "- Shipping: We ship worldwide within 3-5 business days. Free shipping on orders over $50.\n"
    + "- Returns: 30-day return policy. Items must be unused and in original packaging.\n"
    + "- Support hours: Monday-Friday, 9AM-6PM EST. Email support@spurify.com for urgent issues.\n\n"
    + "When answering questions about these topics, reference these policies. "
    + "For other questions, be helpful and concise.\n"

  const DefaultModel: string := "xiaomi/mimo-v2-flash:free"

  /** The values used when `MAX_TOKENS_PER_MESSAGE` / `MAX_MESSAGES_PER_SESSION` are unset. */
  const DefaultMaxTokens: int := 1000
  const DefaultMaxMessages: int := 50

  const ApiErrorPrefix: string := "OpenRouter API error: "

  /** `model || 'xiaomi/mimo-v2-flash:free'`. */
  function SelectModel(model: Option<string>): (m: string)
    ensures model.Some? && model.value != "" ==> m == model.value
    ensures model.None? || model.value == "" ==> m == DefaultModel
    ensures m != ""
  {
    if model.Some? && model.value != "" then model.value else DefaultModel
  }

  /** One history entry as sent: content unchanged, `user` stays `user`, anything else is `assistant`. */
  function ToOutgoing(t: ChatTurn): (o: OutMessage)
    ensures o.content == t.content
    ensures o.role == UserRole <==> t.role == User
    ensures o.role != SystemRole
  {
    OutMessage(if t.role == User then UserRole else AssistantRole, t.content)
  }

  /** The system message every outgoing list starts with. */
  function SystemMessage(): (m: OutMessage) {
    OutMessage(SystemRole, StoreKnowledge)
  }

  /**
   * `[system, ...messages.slice(-maxMessages).map(...)]`. Exactly one system
   * message, first. For `maxMessages >= 1` the rest are the last
   * `min(maxMessages, |history|)` entries in their original order; for
   * `maxMessages == 0`, since `slice(-0)` is `slice(0)`, the whole history.
   */
  function BuildMessages(history: seq<ChatTurn>, maxMessages: int): (r: seq<OutMessage>)
    ensures |r| >= 1 && r[0] == SystemMessage()
    ensures forall i :: 1 <= i < |r| ==> r[i].role != SystemRole
    ensures |r| <= |history| + 1
    ensures forall i :: 1 <= i < |r| ==> r[i] == ToOutgoing(history[|history| + 1 - |r| + i - 1])
    ensures maxMessages >= 1 ==> |r| == 1 + (if maxMessages < |history| then maxMessages else |history|)
    ensures maxMessages == 0 ==> |r| == 1 + |history|
  {
    var kept := SliceFrom(history, -maxMessages);
    [SystemMessage()] + seq(|kept|, i requires 0 <= i < |kept| => ToOutgoing(kept[i]))
  }

  /** A negative limit (`slice` of a positive index) drops the OLDEST `-maxMessages` entries instead. */
  lemma NegativeLimitDropsOldest(history: seq<ChatTurn>, maxMessages: int)
    requires maxMessages < 0
    ensures |BuildMessages(history, maxMessages)|
         == 1 + |history| - (if -maxMessages < |history| then -maxMessages else |history|)
  {
    SliceFromNonNegative(history, -maxMessages);
  }

  /**
   * The request body sent for a history and an optional model: a model name
   * that is never empty, the configured token limit, and the built messages,
   * which open with the system prompt and, for a positive limit, hold at
   * most that many history entries.
   */
  function BuildRequest(cfg: GatewayConfig, history: seq<ChatTurn>, model: Option<string>): (req: CompletionRequest)
    ensures req.model != ""
    ensures model.Some? && model.value != "" ==> req.model == model.value
    ensures req.maxTokens == cfg.maxTokens
    ensures req.messages == BuildMessages(history, cfg.maxMessages)
    ensures 1 <= |req.messages| && req.messages[0] == SystemMessage()
    ensures cfg.maxMessages >= 1 ==> |req.messages| <= cfg.maxMessages + 1
  {
    CompletionRequest(SelectModel(model), BuildMessages(history, cfg.maxMessages), cfg.maxTokens)
  }

  /**
   * With both environment variables unset, a request asks for at most 1000
   * tokens and carries the last 50 history entries (all of a shorter one)
   * after the system prompt.
   */
  lemma DefaultLimits(apiKey: Option<string>, history: seq<ChatTurn>, model: Option<string>)
    ensures var req := BuildRequest(GatewayConfig(apiKey, DefaultMaxTokens, DefaultMaxMessages), history, model);
            && req.maxTokens == 1000
            && |req.messages| == 1 + (if |history| < 50 then |history| else 50)
            && forall i :: 1 <= i < |req.messages| ==> req.messages[i] == ToOutgoing(history[|history| - |req.messages| + i])
  {
  }

  /** `response.ok`. */
  predicate IsOk(status: nat) {
    200 <= status <= 299
  }

  /** `` `OpenRouter API error: ${response.status} - ${errorText}` ``. */
  function ApiErrorMessage(status: nat, text: string): (m: string) {
    ApiErrorPrefix + NumberToString(status) + " - " + text
  }

  /** The error message carries the status, readable back from its digits, and the body text at its end. */
  lemma ApiErrorMessageCarriesStatusAndBody(status: nat, text: string)
    ensures var m := ApiErrorMessage(status, text);
            var d := NumberToString(status);
            && |m| == |ApiErrorPrefix| + |d| + 3 + |text|
            && m[..|ApiErrorPrefix|] == ApiErrorPrefix
            && ParseDecimal(m[|ApiErrorPrefix|..|ApiErrorPrefix| + |d|]) == status
            && m[|m| - |text|..] == text
  {
    var d := NumberToString(status);
    var m := ApiErrorMessage(status, text);
    assert m[|ApiErrorPrefix|..|ApiErrorPrefix| + |d|] == d;
    NumberToStringRoundTrip(status);
  }

  /** `data.choices[0]?.message.content || ''`. */
  function ExtractReply(body: CompletionBody): (r: Result<string, GatewayError>)
    ensures r.Err? ==> r.error == MalformedResponse
    ensures r.Err? <==> body.choices.None? || (|body.choices.value| > 0 && body.choices.value[0].message.None?)
    ensures body.choices == Some([]) ==> r == Ok("")
    ensures r.Ok? && r.value != "" ==> body.choices.value[0].message.value.content == Some(r.value)
    ensures r.Ok? && body.choices.value != [] ==> r.value == body.choices.value[0].message.value.content.GetOr("")
  {
    match body.choices
    case None => Err(MalformedResponse)
    case Some(choices) =>
      if |choices| == 0 then Ok("")
      else
        match choices[0].message
        case None => Err(MalformedResponse)
        case Some(m) => Ok(m.content.GetOr(""))
  }

  predicate HasApiKey(cfg: GatewayConfig) {
    cfg.apiKey.Some? && cfg.apiKey.value != ""
  }

  /**
   * `chatWithLLM(messages, model)`: no key fails before anything is sent; a
   * non-2xx response fails with its status and text; otherwise the reply is
   * extracted from the parsed body.
   */
  function ChatWithLlm(
    cfg: GatewayConfig,
    history: seq<ChatTurn>,
    model: Option<string>,
    fetch: CompletionRequest -> ProviderResponse): (r: Result<string, GatewayError>)
    ensures !HasApiKey(cfg) <==> r == Err(MissingApiKey)
    ensures HasApiKey(cfg) ==>
      var response := fetch(BuildRequest(cfg, history, model));
      && (!IsOk(response.status) ==> r == Err(ApiError(ApiErrorMessage(response.status, response.text))))
      && (IsOk(response.status) && response.json.None? ==> r == Err(MalformedResponse))
      && (IsOk(response.status) && response.json.Some? ==> r == ExtractReply(response.json.value))
  {
    if !HasApiKey(cfg) then Err(MissingApiKey)
    else
      var response := fetch(BuildRequest(cfg, history, model));
      if !IsOk(response.status) then Err(ApiError(ApiErrorMessage(response.status, response.text)))
      else
        match response.json
        case None => Err(MalformedResponse)
        case Some(body) => ExtractReply(body)
  }

  /** Without an API key the outcome does not depend on the network at all: no request is made. */
  lemma MissingKeyMakesNoRequest(
    cfg: GatewayConfig, history: seq<ChatTurn>, model: Option<string>,
    fetch1: CompletionRequest -> ProviderResponse, fetch2: CompletionRequest -> ProviderResponse)
    requires !HasApiKey(cfg)
    ensures ChatWithLlm(cfg, history, model, fetch1) == ChatWithLlm(cfg, history, model, fetch2) == Err(MissingApiKey)
  {
  }

}
