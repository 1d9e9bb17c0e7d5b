/**
 * The Anthropic adapter (providers/anthropic-provider.service.ts): the OpenAI-style
 * payload is rewritten to Anthropic's Messages format, Anthropic's reply is mapped
 * back to an OpenAI-style completion, and the stream yields one OpenAI-style chunk
 * per text delta until `message_stop`.
 */
module AnthropicProvider {

  import opened Wrappers
  import opened Json
  import opened Payloads
  import opened StreamFraming
  import OpenAIProvider

  const AnthropicVersion: string := "2023-06-01"
  const DefaultMaxTokens: int := 1024
  const StreamId: string := "anthropic-stream"

  /** The body Anthropic receives; `stream` is present only on the streaming call. */
  datatype AnthropicPayload = AnthropicPayload(
    model: string,
    maxTokens: int,
    messages: seq<Message>,
    temperature: real,
    topP: real,
    stream: Option<bool>)

  /** `payload.max_tokens || 1024`. */
  function MaxTokens(maxTokens: Option<int>): (n: int)
    ensures maxTokens.Some? && maxTokens.value != 0 ==> n == maxTokens.value
    ensures maxTokens.None? || maxTokens.value == 0 ==> n == DefaultMaxTokens
  {
    if maxTokens.Some? && maxTokens.value != 0 then maxTokens.value else DefaultMaxTokens
  }

  function Headers(apiKey: string): seq<(string, string)> {
    [("x-api-key", apiKey), ("anthropic-version", AnthropicVersion), ("Content-Type", "application/json")]
  }

  /** The POST of the unary (`streaming == false`) or streaming call. */
  function ChatRequest(apiKey: string, baseUrl: string, payload: ChatPayload, streaming: bool)
    : (r: HttpRequest<AnthropicPayload>)
    ensures r.url == baseUrl
    ensures ("x-api-key", apiKey) in r.headers && ("anthropic-version", AnthropicVersion) in r.headers
    ensures r.body.model == payload.model && r.body.messages == payload.messages
    ensures r.body.temperature == payload.temperature && r.body.topP == payload.topP
    ensures r.body.maxTokens == MaxTokens(payload.maxTokens)
    ensures r.body.stream == (if streaming then Some(true) else None)
  {
    var body := AnthropicPayload(payload.model, MaxTokens(payload.maxTokens), payload.messages,
                                 payload.temperature, payload.topP, if streaming then Some(true) else None);
    HttpRequest(baseUrl, Headers(apiKey), body)
  }

  /**
   * The mapping of Anthropic's reply body to an OpenAI-style completion. Reading
   * `data.id` or `data.content[0]` throws when `data` or `data.content` is
   * `undefined` or `null`.
   */
  function MapReply(data: Json, nowMs: int): (r: Result<Completion, TypeError>)
    ensures r.Err? <==> data == JNull || !Present(Get(data, "content"))
    ensures r.Ok? ==> r.value.id == Get(data, "id") && r.value.model == Get(data, "model")
    ensures r.Ok? ==> r.value.created == Seconds(nowMs)
    ensures r.Ok? ==> r.value.finishReason == Get(data, "stop_reason")
    ensures r.Ok? ==> r.value.content == Or(OptDot(At(Get(data, "content").value, 0), "text"), JStr(""))
    ensures r.Ok? ==> r.value.promptTokens == TokenCount(Get(data, "usage"), "input_tokens")
    ensures r.Ok? ==> r.value.completionTokens == TokenCount(Get(data, "usage"), "output_tokens")
    ensures r.Ok? ==> (r.value.totalTokens == Plus(r.value.promptTokens, r.value.completionTokens))
  {
    var body := Some(data);
    match Dot(body, "id")
    case Err(e) => Err(e)
    case Ok(id) =>
      var content := Get(data, "content");
      match Index(content, 0)
      case Err(e) => Err(e)
      case Ok(first) =>
        var usage := Get(data, "usage");
        var prompt := TokenCount(usage, "input_tokens");
        var completion := TokenCount(usage, "output_tokens");
        Ok(Completion(id, Seconds(nowMs), Get(data, "model"), Or(OptDot(first, "text"), JStr("")),
                      Get(data, "stop_reason"), prompt, completion, Plus(prompt, completion)))
  }

  /** The error of a failed call, or of a reply that could not be mapped (no upstream data). */
  function ChatError(errorData: Option<Json>, defaultMessage: string): GatewayError {
    UpstreamError(errorData, "type", defaultMessage, "anthropic")
  }

  /** The unary call. */
  function Chat(reply: Reply, nowMs: int): (r: Result<Completion, GatewayError>)
    ensures reply.Failed? ==> r == Err(ChatError(reply.errorData, ChatFailureMessage))
    ensures reply.Replied? && MapReply(reply.data, nowMs).Ok? ==> r == Ok(MapReply(reply.data, nowMs).value)
    ensures reply.Replied? && MapReply(reply.data, nowMs).Err?
      ==> r == Err(BadGateway(JStr(ProviderErrorCode), JStr(ChatFailureMessage), "anthropic"))
  {
    match reply
    case Failed(errorData) => Err(ChatError(errorData, ChatFailureMessage))
    case Replied(data) =>
      match MapReply(data, nowMs)
      case Ok(c) => Ok(c)
      case Err(_) => Err(ChatError(None, ChatFailureMessage))
  }

  /**
   * One parsed stream event: a `content_block_delta` with a truthy `delta.text`
   * yields a chunk, `message_stop` ends the stream. A `null` event throws on
   * `parsed.type` and is skipped like malformed JSON.
   */
  function EventStep(event: Json, model: string, nowMs: int): (s: Step<Chunk>)
    ensures s.emit.Some? <==> IsDelta(event)
    ensures s.emit.Some? ==> s.emit.value == Chunk(Or(Get(event, "id"), JStr(StreamId)), Seconds(nowMs), model,
                                                   OptDot(Get(event, "delta"), "text").value)
    ensures s.stop <==> Get(event, "type") == Some(JStr("message_stop"))
    ensures !(s.emit.Some? && s.stop)
  {
    if event == JNull then Step(None, false)
    else
      var kind := Get(event, "type");
      var text := OptDot(Get(event, "delta"), "text");
      var emit := if kind == Some(JStr("content_block_delta")) && IsTruthy(text)
        then Some(Chunk(Or(Get(event, "id"), JStr(StreamId)), Seconds(nowMs), model, text.value))
        else None;
      Step(emit, kind == Some(JStr("message_stop")))
  }

  /** True for an event carrying a piece of text. */
  predicate IsDelta(event: Json) {
    Get(event, "type") == Some(JStr("content_block_delta")) && IsTruthy(OptDot(Get(event, "delta"), "text"))
  }

  /** The event of a stream line: the parsed payload of a `data: ` line, when it parses. */
  function DataEvent(parse: string -> Option<Json>): string -> Option<Json> {
    line => if Strings.StartsWith(line, OpenAIProvider.DataPrefix) then parse(line[|OpenAIProvider.DataPrefix|..]) else None
  }

  function EventClassifier(model: string, nowMs: int): Json -> Step<Chunk> {
    event => EventStep(event, model, nowMs)
  }

  function Classifier(parse: string -> Option<Json>, model: string, nowMs: int): string -> Step<Chunk> {
    OfEvents(DataEvent(parse), EventClassifier(model, nowMs))
  }

  function StreamError(): Option<Json> -> GatewayError {
    errorData => ChatError(errorData, StreamFailureMessage)
  }

  /** What the streaming call yields and raises. */
  function Stream(payload: ChatPayload, reply: StreamReply, parse: string -> Option<Json>, nowMs: int)
    : StreamResult<Chunk>
  {
    Finish(Frames(AllLines(reply.chunks), Classifier(parse, payload.model, nowMs)), reply.failure, StreamError())
  }

  method ChatStream(payload: ChatPayload, reply: StreamReply, parse: string -> Option<Json>, nowMs: int)
    returns (r: StreamResult<Chunk>)
    ensures r == Stream(payload, reply, parse, nowMs)
  {
    r := RunStream(reply.chunks, Classifier(parse, payload.model, nowMs), reply.failure, StreamError());
  }

  // ---------------------------------------------------------------------------
  // Reference definitions and properties.

  /** The texts of the delta events, in order. */
  function DeltaTexts(events: seq<Json>): seq<Json> {
    if |events| == 0 then []
    else
      (if IsDelta(events[0]) then [OptDot(Get(events[0], "delta"), "text").value] else [])
      + DeltaTexts(events[1..])
  }

  lemma {:induction false} EmittedTexts(model: string, nowMs: int, events: seq<Json>)
    ensures Texts(Emitted(events, EventClassifier(model, nowMs))) == DeltaTexts(events)
    decreases |events|
  {
    if |events| > 0 {
      var classify := EventClassifier(model, nowMs);
      var step := classify(events[0]);
      var here := if step.emit.Some? then [step.emit.value] else [];
      EmittedTexts(model, nowMs, events[1..]);
      TextsAppend(here, Emitted(events[1..], classify));
    }
  }

  /** True when no event is `message_stop`. */
  predicate NoMessageStop(events: seq<Json>) {
    forall k :: 0 <= k < |events| ==> Get(events[k], "type") != Some(JStr("message_stop"))
  }

  /**
   * A stream without `message_stop` yields exactly the text deltas, in order, and
   * ends with the upstream failure if any.
   */
  lemma StreamYieldsDeltas(payload: ChatPayload, reply: StreamReply, parse: string -> Option<Json>, nowMs: int)
    requires NoMessageStop(Events(DataEvent(parse), AllLines(reply.chunks)))
    ensures Texts(Stream(payload, reply, parse, nowMs).items) == DeltaTexts(Events(DataEvent(parse), AllLines(reply.chunks)))
    ensures Stream(payload, reply, parse, nowMs).error.Some? <==> reply.failure.Some?
  {
    var events := Events(DataEvent(parse), AllLines(reply.chunks));
    var classify := EventClassifier(payload.model, nowMs);
    FramesOfEvents(DataEvent(parse), classify, AllLines(reply.chunks));
    assert NoStop(events, classify);
    FramesNoStop(events, classify);
    EmittedTexts(payload.model, nowMs, events);
  }

  /** A `message_stop` event ends the stream: later events, and a later failure, are ignored. */
  lemma MessageStopEndsStream(payload: ChatPayload, reply: StreamReply, parse: string -> Option<Json>, nowMs: int,
                              i: nat)
    requires i < |Events(DataEvent(parse), AllLines(reply.chunks))|
    requires Get(Events(DataEvent(parse), AllLines(reply.chunks))[i], "type") == Some(JStr("message_stop"))
    requires NoMessageStop(Events(DataEvent(parse), AllLines(reply.chunks))[..i])
    ensures Stream(payload, reply, parse, nowMs).error.None?
    ensures Texts(Stream(payload, reply, parse, nowMs).items)
      == DeltaTexts(Events(DataEvent(parse), AllLines(reply.chunks))[..i])
  {
    var events := Events(DataEvent(parse), AllLines(reply.chunks));
    var classify := EventClassifier(payload.model, nowMs);
    FramesOfEvents(DataEvent(parse), classify, AllLines(reply.chunks));
    assert forall k :: 0 <= k < i ==> events[..i][k] == events[k];
    FramesStopAt(events, i, classify);
    TakeOneMore(events, i);
    EmittedAppend(events[..i], [events[i]], classify);
    assert Emitted([events[i]], classify) == [] + Emitted([events[i]][1..], classify);
    assert Emitted(events[..i + 1], classify) == Emitted(events[..i], classify) + [];
    EmittedTexts(payload.model, nowMs, events[..i]);
  }

  /** Every yielded chunk names the requested model and carries non-empty text. */
  lemma ChunksWellFormed(payload: ChatPayload, reply: StreamReply, parse: string -> Option<Json>, nowMs: int, k: nat)
    requires k < |Stream(payload, reply, parse, nowMs).items|
    ensures Stream(payload, reply, parse, nowMs).items[k].model == payload.model
    ensures Truthy(Stream(payload, reply, parse, nowMs).items[k].content)
    ensures Stream(payload, reply, parse, nowMs).items[k].created == Seconds(nowMs)
  {
    var classify := EventClassifier(payload.model, nowMs);
    var events := Events(DataEvent(parse), AllLines(reply.chunks));
    FramesOfEvents(DataEvent(parse), classify, AllLines(reply.chunks));
    FramesItemsEmitted(events, classify, k);
  }

  /** A reply whose body has no `content` array is reported with the default code and message. */
  lemma MissingContentIsDefaultError(data: Json, nowMs: int)
    requires data.JObj? && Get(data, "content").None?
    ensures Chat(Replied(data), nowMs)
      == Err(BadGateway(JStr(ProviderErrorCode), JStr(ChatFailureMessage), "anthropic"))
  {
  }

  /** With numeric token counts the usage block is the counts and their sum. */
  lemma UsageCounts(usage: Json, input: int, output: int)
    requires Get(usage, "input_tokens") == Some(JNum(input))
    requires Get(usage, "output_tokens") == Some(JNum(output))
    ensures TokenCount(Some(usage), "input_tokens") == JNum(input)
    ensures TokenCount(Some(usage), "output_tokens") == JNum(output)
    ensures Plus(TokenCount(Some(usage), "input_tokens"), TokenCount(Some(usage), "output_tokens"))
            == JNum(input + output)
  {
    assert usage != JNull;
  }

  /** Anthropic's error `type` (not `code`) becomes the error code. */
  lemma ErrorCodeIsType(errorData: Json, kind: Json, message: Json)
    requires Truthy(kind) && Truthy(message)
    requires Get(errorData, "error") == Some(JObj([("type", kind), ("message", message)]))
    ensures Chat(Failed(Some(errorData)), 0) == Err(BadGateway(kind, message, "anthropic"))
  {
    var upstream := JObj([("type", kind), ("message", message)]);
    assert FieldIndex(upstream.fields, "type") == 0;
    assert FieldIndex(upstream.fields, "message") == 1;
    assert OptDot(Some(errorData), "error") == Some(upstream);
  }
}
