/**
 * The Google Gemini adapter (providers/google-provider.service.ts): messages become
 * Gemini `contents`, the key travels in the URL, Gemini's reply is mapped to an
 * OpenAI-style completion, and the stream is read as one JSON document per line,
 * each yielding its candidate's text and ending the stream on a finish reason.
 */
module GoogleProvider {

  import opened Wrappers
  import opened Strings
  import opened Json
  import opened Payloads
  import opened StreamFraming

  const DefaultMaxOutputTokens: int := 2048
  const UnaryEndpoint: string := "generateContent"
  const StreamEndpoint: string := "streamGenerateContent"
  const DefaultFinishReason: string := "stop"

  /** One Gemini content entry: a role and a single text part. */
  datatype Content = Content(role: string, text: string)

  datatype GeminiPayload = GeminiPayload(
    contents: seq<Content>,
    temperature: real,
    topP: real,
    maxOutputTokens: int)

  /** Gemini's role for a chat role: 'model' for the assistant, 'user' for anything else. */
  function GeminiRole(role: string): (r: string)
    ensures r == "model" <==> role == "assistant"
    ensures r == "model" || r == "user"
  {
    if role == "assistant" then "model" else "user"
  }

  function Contents(messages: seq<Message>): (cs: seq<Content>)
    ensures |cs| == |messages|
    ensures forall k :: 0 <= k < |messages| ==>
              cs[k] == Content(GeminiRole(messages[k].role), messages[k].content)
  {
    seq(|messages|, k requires 0 <= k < |messages| => Content(GeminiRole(messages[k].role), messages[k].content))
  }

  /** `payload.max_tokens || 2048`. */
  function MaxOutputTokens(maxTokens: Option<int>): (n: int)
    ensures maxTokens.Some? && maxTokens.value != 0 ==> n == maxTokens.value
    ensures maxTokens.None? || maxTokens.value == 0 ==> n == DefaultMaxOutputTokens
  {
    if maxTokens.Some? && maxTokens.value != 0 then maxTokens.value else DefaultMaxOutputTokens
  }

  function Body(payload: ChatPayload): GeminiPayload {
    GeminiPayload(Contents(payload.messages), payload.temperature, payload.topP, MaxOutputTokens(payload.maxTokens))
  }

  /**
   * The POST of the unary or streaming call: the streaming call swaps the first
   * `generateContent` of the base URL for `streamGenerateContent`; both append the key.
   */
  function ChatRequest(apiKey: string, baseUrl: string, payload: ChatPayload, streaming: bool)
    : (r: HttpRequest<GeminiPayload>)
    ensures !streaming ==> r.url == baseUrl + "?key=" + apiKey
    ensures streaming ==> r.url == ReplaceFirst(baseUrl, UnaryEndpoint, StreamEndpoint) + "?key=" + apiKey
    ensures r.headers == [("Content-Type", "application/json")]
    ensures r.body == Body(payload)
  {
    var base := if streaming then ReplaceFirst(baseUrl, UnaryEndpoint, StreamEndpoint) else baseUrl;
    HttpRequest(base + "?key=" + apiKey, [("Content-Type", "application/json")], Body(payload))
  }

  /**
   * `candidate?.finishReason?.toLowerCase() || 'stop'`: calling `toLowerCase` on a
   * finish reason that is present but not a string throws.
   */
  function FinishReason(candidate: Option<Json>): (r: Result<Json, TypeError>)
    ensures !Present(OptDot(candidate, "finishReason")) ==> r == Ok(JStr(DefaultFinishReason))
    ensures AsString(OptDot(candidate, "finishReason")) == Some("") ==> r == Ok(JStr(DefaultFinishReason))
    ensures AsString(OptDot(candidate, "finishReason")).Some? && AsString(OptDot(candidate, "finishReason")) != Some("")
      ==> r == Ok(JStr(Lower(AsString(OptDot(candidate, "finishReason")).value)))
    ensures r.Err? <==> Present(OptDot(candidate, "finishReason")) && !OptDot(candidate, "finishReason").value.JStr?
  {
    var reason := OptDot(candidate, "finishReason");
    if !Present(reason) then Ok(JStr(DefaultFinishReason))
    else match reason.value
      case JStr(s) => Ok(Or(Some(JStr(Lower(s))), JStr(DefaultFinishReason)))
      case _ => Err(TypeError)
  }

  /** `response.data.candidates?.[0]`. */
  function FirstCandidate(data: Json): Option<Json> {
    OptAt(Get(data, "candidates"), 0)
  }

  /** `candidate?.content?.parts?.[0]?.text`. */
  function CandidateText(candidate: Option<Json>): Option<Json> {
    OptDot(OptAt(OptDot(OptDot(candidate, "content"), "parts"), 0), "text")
  }

  /** The mapping of Gemini's reply body to an OpenAI-style completion. */
  function MapReply(data: Json, model: string, nowMs: int): (r: Result<Completion, TypeError>)
    ensures r.Err? <==> data == JNull || FinishReason(FirstCandidate(data)).Err?
    ensures r.Ok? ==> r.value.id == Some(JStr("gemini-" + IntToString(nowMs)))
    ensures r.Ok? ==> r.value.created == Seconds(nowMs) && r.value.model == Some(JStr(model))
    ensures r.Ok? ==> r.value.content == Or(CandidateText(FirstCandidate(data)), JStr(""))
    ensures r.Ok? ==> r.value.finishReason == Some(FinishReason(FirstCandidate(data)).value)
    ensures r.Ok? ==> r.value.promptTokens == TokenCount(Get(data, "usageMetadata"), "promptTokenCount")
    ensures r.Ok? ==> r.value.completionTokens == TokenCount(Get(data, "usageMetadata"), "candidatesTokenCount")
    ensures r.Ok? ==> r.value.totalTokens == TokenCount(Get(data, "usageMetadata"), "totalTokenCount")
  {
    if data == JNull then Err(TypeError)
    else
      var candidate := FirstCandidate(data);
      match FinishReason(candidate)
      case Err(e) => Err(e)
      case Ok(reason) =>
        var usage := Get(data, "usageMetadata");
        Ok(Completion(Some(JStr("gemini-" + IntToString(nowMs))), Seconds(nowMs), Some(JStr(model)),
                      Or(CandidateText(candidate), JStr("")), Some(reason),
                      TokenCount(usage, "promptTokenCount"), TokenCount(usage, "candidatesTokenCount"),
                      TokenCount(usage, "totalTokenCount")))
  }

  /** The adapter's error: the upstream's code or 'provider_error', passed through `String`. */
  function GoogleError(errorData: Option<Json>, defaultMessage: string): (e: GatewayError)
    ensures e.error.JStr? && e.provider == "google"
    ensures e.error == JStr(JsString(UpstreamError(errorData, "code", defaultMessage, "google").error))
    ensures e.message == UpstreamError(errorData, "code", defaultMessage, "google").message
  {
    var e := UpstreamError(errorData, "code", defaultMessage, "google");
    e.(error := JStr(JsString(e.error)))
  }

  /** The unary call. */
  function Chat(payload: ChatPayload, reply: Reply, nowMs: int): (r: Result<Completion, GatewayError>)
    ensures reply.Failed? ==> r == Err(GoogleError(reply.errorData, ChatFailureMessage))
    ensures reply.Replied? && MapReply(reply.data, payload.model, nowMs).Ok?
      ==> r == Ok(MapReply(reply.data, payload.model, nowMs).value)
    ensures reply.Replied? && MapReply(reply.data, payload.model, nowMs).Err?
      ==> r == Err(BadGateway(JStr(ProviderErrorCode), JStr(ChatFailureMessage), "google"))
  {
    match reply
    case Failed(errorData) => Err(GoogleError(errorData, ChatFailureMessage))
    case Replied(data) =>
      match MapReply(data, payload.model, nowMs)
      case Ok(c) => Ok(c)
      case Err(_) => Err(GoogleError(None, ChatFailureMessage))
  }

  /**
   * One parsed stream line: a truthy first-candidate text yields a chunk, a truthy
   * finish reason then ends the stream. A `null` document throws on
   * `parsed.candidates` and is skipped.
   */
  function EventStep(event: Json, model: string, nowMs: int): (s: Step<Chunk>)
    ensures s.emit.Some? <==> event != JNull && IsTruthy(CandidateText(FirstCandidate(event)))
    ensures s.emit.Some? ==> (s.emit.value
      == Chunk(JStr("gemini-stream-" + IntToString(nowMs)), Seconds(nowMs), model, CandidateText(FirstCandidate(event)).value))
    ensures s.stop <==> event != JNull && IsTruthy(OptDot(FirstCandidate(event), "finishReason"))
  {
    if event == JNull then Step(None, false)
    else
      var candidate := FirstCandidate(event);
      var text := CandidateText(candidate);
      var emit := if IsTruthy(text)
        then Some(Chunk(JStr("gemini-stream-" + IntToString(nowMs)), Seconds(nowMs), model, text.value))
        else None;
      Step(emit, IsTruthy(OptDot(candidate, "finishReason")))
  }

  function EventClassifier(model: string, nowMs: int): Json -> Step<Chunk> {
    event => EventStep(event, model, nowMs)
  }

  /** Every non-blank line is parsed whole; lines that do not parse are skipped. */
  function Classifier(parse: string -> Option<Json>, model: string, nowMs: int): string -> Step<Chunk> {
    OfEvents(parse, EventClassifier(model, nowMs))
  }

  function StreamError(): Option<Json> -> GatewayError {
    errorData => GoogleError(errorData, StreamFailureMessage)
  }

  /** What the streaming call yields and raises. */
  function Stream(payload: ChatPayload, reply: StreamReply, parse: string -> Option<Json>, nowMs: int)
    : StreamResult<Chunk>
  {
    Finish(Frames(AllLines(reply.chunks), Classifier(parse, payload.model, nowMs)), reply.failure, StreamError())
  }

  method ChatStream(payload: ChatPayload, reply: StreamReply, parse: string -> Option<Json>, nowMs: int)
    returns (r: StreamResult<Chunk>)
    ensures r == Stream(payload, reply, parse, nowMs)
  {
    r := RunStream(reply.chunks, Classifier(parse, payload.model, nowMs), reply.failure, StreamError());
  }

  // ---------------------------------------------------------------------------
  // Reference definitions and properties.

  /** The truthy first-candidate texts of the documents, in order. */
  function CandidateTexts(events: seq<Json>): seq<Json> {
    if |events| == 0 then []
    else
      var text := CandidateText(FirstCandidate(events[0]));
      (if events[0] != JNull && IsTruthy(text) then [text.value] else []) + CandidateTexts(events[1..])
  }

  /** True when a document carries a finish reason. */
  predicate Finishes(event: Json) {
    event != JNull && IsTruthy(OptDot(FirstCandidate(event), "finishReason"))
  }

  lemma {:induction false} EmittedTexts(model: string, nowMs: int, events: seq<Json>)
    ensures Texts(Emitted(events, EventClassifier(model, nowMs))) == CandidateTexts(events)
    decreases |events|
  {
    if |events| > 0 {
      var classify := EventClassifier(model, nowMs);
      var step := classify(events[0]);
      var here := if step.emit.Some? then [step.emit.value] else [];
      EmittedTexts(model, nowMs, events[1..]);
      TextsAppend(here, Emitted(events[1..], classify));
    }
  }

  /**
   * A stream whose documents carry no finish reason yields every candidate text,
   * in order, and ends with the upstream failure if any.
   */
  lemma StreamYieldsTexts(payload: ChatPayload, reply: StreamReply, parse: string -> Option<Json>, nowMs: int)
    requires forall k :: 0 <= k < |Events(parse, AllLines(reply.chunks))| ==> !Finishes(Events(parse, AllLines(reply.chunks))[k])
    ensures Texts(Stream(payload, reply, parse, nowMs).items) == CandidateTexts(Events(parse, AllLines(reply.chunks)))
    ensures Stream(payload, reply, parse, nowMs).error.Some? <==> reply.failure.Some?
  {
    var events := Events(parse, AllLines(reply.chunks));
    var classify := EventClassifier(payload.model, nowMs);
    FramesOfEvents(parse, classify, AllLines(reply.chunks));
    assert NoStop(events, classify);
    FramesNoStop(events, classify);
    EmittedTexts(payload.model, nowMs, events);
  }

  /**
   * The first document with a finish reason ends the stream after its own text is
   * yielded: later documents, and a later failure, are ignored.
   */
  lemma FinishReasonEndsStream(payload: ChatPayload, reply: StreamReply, parse: string -> Option<Json>, nowMs: int,
                               i: nat)
    requires i < |Events(parse, AllLines(reply.chunks))|
    requires Finishes(Events(parse, AllLines(reply.chunks))[i])
    requires forall k :: 0 <= k < i ==> !Finishes(Events(parse, AllLines(reply.chunks))[k])
    ensures Stream(payload, reply, parse, nowMs).error.None?
    ensures Texts(Stream(payload, reply, parse, nowMs).items)
      == CandidateTexts(Events(parse, AllLines(reply.chunks))[..i + 1])
  {
    var events := Events(parse, AllLines(reply.chunks));
    var classify := EventClassifier(payload.model, nowMs);
    FramesOfEvents(parse, classify, AllLines(reply.chunks));
    FramesStopAt(events, i, classify);
    EmittedTexts(payload.model, nowMs, events[..i + 1]);
  }

  /** Every yielded chunk names the requested model and carries non-empty text. */
  lemma ChunksWellFormed(payload: ChatPayload, reply: StreamReply, parse: string -> Option<Json>, nowMs: int, k: nat)
    requires k < |Stream(payload, reply, parse, nowMs).items|
    ensures Stream(payload, reply, parse, nowMs).items[k].model == payload.model
    ensures Truthy(Stream(payload, reply, parse, nowMs).items[k].content)
  {
    var classify := EventClassifier(payload.model, nowMs);
    var events := Events(parse, AllLines(reply.chunks));
    FramesOfEvents(parse, classify, AllLines(reply.chunks));
    FramesItemsEmitted(events, classify, k);
  }

  /**
   * Unlike the Anthropic adapter, the total is copied from `totalTokenCount`, not
   * summed: a reply without it reports a total of 0 whatever the other counts.
   */
  lemma TotalIsCopiedNotSummed(data: Json, model: string, nowMs: int, prompt: int, completion: int)
    requires MapReply(data, model, nowMs).Ok?
    requires data == JObj([("usageMetadata", JObj([("promptTokenCount", JNum(prompt)),
                                                   ("candidatesTokenCount", JNum(completion))]))])
    ensures MapReply(data, model, nowMs).value.totalTokens == JNum(0)
  {
    var usage := JObj([("promptTokenCount", JNum(prompt)), ("candidatesTokenCount", JNum(completion))]);
    assert FieldIndex(data.fields, "usageMetadata") == 0;
    assert FieldIndex(usage.fields, "totalTokenCount") == 2;
  }

  /** A base URL without `generateContent` is also the streaming URL. */
  lemma StreamUrlWithoutEndpoint(baseUrl: string)
    requires forall k :: 0 <= k <= |baseUrl| ==> !OccursAt(baseUrl, UnaryEndpoint, k)
    ensures ReplaceFirst(baseUrl, UnaryEndpoint, StreamEndpoint) == baseUrl
  {
  }

  /** A base URL ending in its only `generateContent` streams from `streamGenerateContent`. */
  lemma StreamUrlSwapsEndpoint(prefix: string)
    requires forall k :: 0 <= k < |prefix| ==> !OccursAt(prefix + UnaryEndpoint, UnaryEndpoint, k)
    ensures ReplaceFirst(prefix + UnaryEndpoint, UnaryEndpoint, StreamEndpoint) == prefix + StreamEndpoint
  {
    var url := prefix + UnaryEndpoint;
    assert url[|prefix|..|prefix| + |UnaryEndpoint|] == UnaryEndpoint;
    assert OccursAt(url, UnaryEndpoint, |prefix|);
    assert url[..|prefix|] == prefix && url[|prefix| + |UnaryEndpoint|..] == [];
  }
}
