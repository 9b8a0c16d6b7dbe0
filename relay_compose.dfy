/** Request composition and error responses of the chat relay handler (`handler` in
    src/pages/api/getanswer.ts): the ordered chat-completions message list, the provider URL,
    and which failures answer with a status-500 JSON error instead of an event stream. */
module RelayCompose {
  import opened Wrappers
  import opened Text
  import opened RelayFrames

  datatype Role = System | User | Assistant

  /** A prior turn as the client sends it: role, content and a timestamp the relay drops. */
  datatype HistoryTurn = HistoryTurn(role: Role, content: string, timestamp: string)

  /** One part of a multi-part user message. */
  datatype Part = TextPart(text: string) | ImageUrlPart(url: string)

  /** A message's content: plain text, or a list of parts. */
  datatype Content = Plain(text: string) | Parts(parts: seq<Part>)

  datatype Message = Message(role: Role, content: Content)

  const SystemPrompt: string :=
    "You are Ayunetra, an AI-powered health assistant that provides personalized recommendations for common day-to-day health concerns. You help users manage and find relief from various common ailments such as cough, fever, sneezing, acidity, and other non-severe conditions. Important guidelines:\n\n"
    + "1. Focus on providing general guidance for common, non-severe health conditions\n"
    + "2. Always include a clear disclaimer that you are not a replacement for professional medical advice\n"
    + "3. For any serious symptoms or conditions, strongly recommend consulting a healthcare provider\n"
    + "4. Provide practical, easy-to-follow recommendations\n"
    + "5. When appropriate, suggest lifestyle modifications and preventive measures\n"
    + "6. Maintain a caring and professional tone\n"
    + "7. If analyzing images of symptoms, be cautious and always recommend professional evaluation for concerning findings\n"
    + "8. Reference previous conversation context to provide more personalized recommendations\n\n"
    + "End each response with a brief encouraging note about taking care of one's health."

  const Deployment: string := "gpt-4o"
  const ApiVersion: string := "2024-02-15-preview"
  const MaxTokens: nat := 1500
  const MissingKeyError: string := "AZURE_OPENAI_API_KEY environment variable is not defined"
  const UpstreamError: string := "Failed to get response from Azure OpenAI API"

  /** JavaScript truthiness of an optional string: present and not empty. */
  predicate Truthy(s: Option<string>) {
    s.Some? && s.value != ""
  }

  function SystemMessage(): Message {
    Message(System, Plain(SystemPrompt))
  }

  /** The new user turn: two parts (the text, then the image reference) when an image URL is
      given, plain text otherwise. */
  function UserMessage(msg: string, imageUrl: Option<string>): (m: Message)
    ensures m.role == User
    ensures m.content.Parts? <==> Truthy(imageUrl)
    ensures Truthy(imageUrl) ==> m.content == Parts([TextPart(msg), ImageUrlPart(imageUrl.value)])
    ensures !Truthy(imageUrl) ==> m.content == Plain(msg)
  {
    if Truthy(imageUrl) then Message(User, Parts([TextPart(msg), ImageUrlPart(imageUrl.value)]))
    else Message(User, Plain(msg))
  }

  /** The text a message carries: the plain text, or the text of its first part. */
  function TextOf(m: Message): string {
    match m.content
    case Plain(t) => t
    case Parts(ps) => if |ps| > 0 && ps[0].TextPart? then ps[0].text else ""
  }

  /** The image a message refers to, if any. */
  function ImageOf(m: Message): Option<string> {
    match m.content
    case Plain(_) => None
    case Parts(ps) => if |ps| > 1 && ps[1].ImageUrlPart? then Some(ps[1].url) else None
  }

  /** The user message loses nothing: its text is the message typed, and it refers to the image
      exactly when a non-empty image URL was given. */
  lemma UserMessageRoundTrip(msg: string, imageUrl: Option<string>)
    ensures TextOf(UserMessage(msg, imageUrl)) == msg
    ensures ImageOf(UserMessage(msg, imageUrl)) == if Truthy(imageUrl) then imageUrl else None
  {
  }

  /** `conversationHistory?.map(msg => ({role: msg.role, content: msg.content}))`. */
  function PriorMessages(turns: seq<HistoryTurn>): (ms: seq<Message>)
    ensures |ms| == |turns|
    ensures forall i :: 0 <= i < |turns| ==> ms[i] == Message(turns[i].role, Plain(turns[i].content))
    decreases |turns|
  {
    if turns == [] then []
    else [Message(turns[0].role, Plain(turns[0].content))] + PriorMessages(turns[1..])
  }

  /** The `messages` array sent upstream: the system prompt, the prior turns without their
      timestamps (none when the history is missing), then the new user turn. */
  function ComposeMessages(msg: string, imageUrl: Option<string>, history: Option<seq<HistoryTurn>>): (ms: seq<Message>)
    ensures |ms| == |history.GetOr([])| + 2
    ensures ms[0] == SystemMessage()
    ensures forall i :: 0 <= i < |history.GetOr([])| ==>
      ms[i + 1] == Message(history.GetOr([])[i].role, Plain(history.GetOr([])[i].content))
    ensures ms[|ms| - 1] == UserMessage(msg, imageUrl)
  {
    [SystemMessage()] + PriorMessages(history.GetOr([])) + [UserMessage(msg, imageUrl)]
  }

  /** Timestamps never reach the provider: two histories that agree on roles and contents give
      the same message list. */
  lemma TimestampsDropped(msg: string, imageUrl: Option<string>, h1: seq<HistoryTurn>, h2: seq<HistoryTurn>)
    requires |h1| == |h2|
    requires forall i :: 0 <= i < |h1| ==> h1[i].role == h2[i].role && h1[i].content == h2[i].content
    ensures ComposeMessages(msg, imageUrl, Some(h1)) == ComposeMessages(msg, imageUrl, Some(h2))
  {
    var m1, m2 := ComposeMessages(msg, imageUrl, Some(h1)), ComposeMessages(msg, imageUrl, Some(h2));
    forall i | 0 <= i < |m1| ensures m1[i] == m2[i] {
      if 0 < i < |m1| - 1 {
        assert m1[i] == Message(h1[i - 1].role, Plain(h1[i - 1].content));
      }
    }
  }

  /** The system prompt is the only system message unless a prior turn itself claims that
      role, and the user turn is always last. */
  lemma OneSystemMessage(msg: string, imageUrl: Option<string>, history: Option<seq<HistoryTurn>>)
    requires forall t <- history.GetOr([]) :: t.role != System
    ensures var ms := ComposeMessages(msg, imageUrl, history);
      forall i :: 0 <= i < |ms| ==> (ms[i].role == System <==> i == 0)
  {
    var ms := ComposeMessages(msg, imageUrl, history);
    var turns := history.GetOr([]);
    forall i | 0 < i < |ms| - 1 ensures ms[i].role != System {
      assert turns[i - 1] in turns;
    }
  }

  // ---------------------------------------------------------------------------------------
  // Provider URL

  /** What a template literal prints for an environment variable that may be undefined. */
  function EndpointText(endpoint: Option<string>): string {
    endpoint.GetOr("undefined")
  }

  const CompletionsPath: string := "/openai/deployments/" + Deployment + "/chat/completions?api-version=" + ApiVersion

  /** `${endpoint}/openai/deployments/${deployment}/chat/completions?api-version=${apiVersion}` */
  function CompletionsUrl(endpoint: Option<string>): (url: string)
    ensures StartsWith(url, EndpointText(endpoint))
    ensures |url| == |EndpointText(endpoint)| + |CompletionsPath|
  {
    EndpointText(endpoint) + CompletionsPath
  }

  /** Reads the endpoint back out of a completions URL. */
  function EndpointOf(url: string): Option<string> {
    if |url| >= |CompletionsPath| && url[|url| - |CompletionsPath|..] == CompletionsPath
    then Some(url[..|url| - |CompletionsPath|]) else None
  }

  /** The URL keeps the endpoint recoverable, so distinct endpoints give distinct URLs. */
  lemma CompletionsUrlRoundTrip(endpoint: Option<string>)
    ensures EndpointOf(CompletionsUrl(endpoint)) == Some(EndpointText(endpoint))
  {
    var url := CompletionsUrl(endpoint);
    assert url[|url| - |CompletionsPath|..] == CompletionsPath;
    assert url[..|url| - |CompletionsPath|] == EndpointText(endpoint);
  }

  // ---------------------------------------------------------------------------------------
  // The handler

  /** The JSON body the client posts. */
  datatype ChatRequest = ChatRequest(msg: string, imageUrl: Option<string>, history: Option<seq<HistoryTurn>>)

  /** The two environment variables the handler reads. */
  datatype Env = Env(endpoint: Option<string>, apiKey: Option<string>)

  /** The POST sent to the provider (temperature, top_p and the penalties are fixed floats and
      not represented). */
  datatype Outbound = Outbound(url: string, apiKey: string, messages: seq<Message>, maxTokens: nat, stream: bool)

  /** What `fetch` gave back: it threw, or a response with its `ok` flag and its body (the
      sequence of decoded chunks, or none when the response has no body). */
  datatype Upstream = FetchThrew(message: string) | Replied(ok: bool, body: Option<seq<string>>)

  /** The handler's response: a status-500 JSON error, or a 200 event stream of frames. */
  datatype Response = ErrorResponse(status: nat, error: string) | EventStream(frames: seq<Frame>)

  /** What one call does: the request sent upstream, if any, and the response. */
  datatype Outcome = Outcome(sent: Option<Outbound>, response: Response)

  /** `handler(req)`: `body` is what `req.json()` produced (or the message of the error it
      threw), `env` the environment, `upstream` what `fetch` returned for the composed request,
      and `parseJson` the reading of each payload. */
  function Handle(body: Result<ChatRequest, string>, env: Env, upstream: Upstream,
                  parseJson: string -> JsonChoice): (o: Outcome)
    ensures o.response.ErrorResponse? ==> o.response.status == 500
    ensures o.sent.Some? <==> body.Success? && Truthy(env.apiKey)
    ensures body.Failure? ==> o.response == ErrorResponse(500, body.error)
    ensures body.Success? && !Truthy(env.apiKey) ==> o.response == ErrorResponse(500, MissingKeyError)
    ensures o.sent.Some? ==>
      && o.sent.value.url == CompletionsUrl(env.endpoint)
      && o.sent.value.apiKey == env.apiKey.value
      && o.sent.value.messages == ComposeMessages(body.value.msg, body.value.imageUrl, body.value.history)
      && o.sent.value.maxTokens == MaxTokens && o.sent.value.stream
    ensures o.response.EventStream? <==> o.sent.Some? && upstream.Replied? && upstream.ok
    ensures o.sent.Some? && upstream.Replied? && !upstream.ok ==> o.response == ErrorResponse(500, UpstreamError)
    ensures o.sent.Some? && upstream.FetchThrew? ==> o.response == ErrorResponse(500, upstream.message)
    ensures o.response.EventStream? && upstream.body.Some? ==>
      o.response.frames == StreamFrames(upstream.body.value, parseJson)
    ensures o.response.EventStream? && upstream.body.None? ==> o.response.frames == []
  {
    match body
    case Failure(e) => Outcome(None, ErrorResponse(500, e))
    case Success(req) =>
      if !Truthy(env.apiKey) then Outcome(None, ErrorResponse(500, MissingKeyError))
      else
        var out := Outbound(CompletionsUrl(env.endpoint), env.apiKey.value,
                            ComposeMessages(req.msg, req.imageUrl, req.history), MaxTokens, true);
        match upstream
        case FetchThrew(e) => Outcome(Some(out), ErrorResponse(500, e))
        case Replied(ok, chunks) =>
          if !ok then Outcome(Some(out), ErrorResponse(500, UpstreamError))
          else match chunks
            case None => Outcome(Some(out), EventStream([]))
            case Some(cs) => Outcome(Some(out), EventStream(StreamFrames(cs, parseJson)))
  }

  /** Whenever the upstream answers with a body, the client's stream ends with a terminal frame,
      whether or not the provider ever sent `[DONE]`; an error response carries no frames. */
  lemma StreamAlwaysTerminated(body: Result<ChatRequest, string>, env: Env, chunks: seq<string>,
                               parseJson: string -> JsonChoice)
    requires body.Success? && Truthy(env.apiKey)
    ensures var r := Handle(body, env, Replied(true, Some(chunks)), parseJson).response;
      r.EventStream? && |r.frames| > 0 && r.frames[|r.frames| - 1] == DoneFrame
  {
  }

  /** A failed upstream call never opens a stream: the client gets one status-500 error. */
  lemma UpstreamFailureNoStream(body: Result<ChatRequest, string>, env: Env, upstream: Upstream,
                                parseJson: string -> JsonChoice)
    requires upstream.FetchThrew? || (upstream.Replied? && !upstream.ok)
    ensures Handle(body, env, upstream, parseJson).response.ErrorResponse?
    ensures Handle(body, env, upstream, parseJson).response.status == 500
  {
  }
}
