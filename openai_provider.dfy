/**
 * The OpenAI adapter (providers/openai-provider.service.ts): the payload is posted
 * unchanged with a Bearer header, the reply body is returned unchanged, and the
 * stream is read as `data: ` lines ending at `data: [DONE]`.
 *
 * The OpenAI-compatible behaviour is defined once here, for a given provider tag;
 * the xAI adapter uses it with the tag 'xai'.
 */
module OpenAIProvider {

  import opened Wrappers
  import opened Strings
  import opened Json
  import opened Payloads
  import opened StreamFraming

  const DataPrefix: string := "data: "
  const DoneMarker: string := "[DONE]"

  /** The headers of an OpenAI-compatible POST. */
  function BearerHeaders(apiKey: string): seq<(string, string)> {
    [("Authorization", "Bearer " + apiKey), ("Content-Type", "application/json")]
  }

  /** The POST of an OpenAI-compatible adapter: the payload unchanged, to `baseUrl`. */
  function CompatibleRequest(apiKey: string, baseUrl: string, payload: ChatPayload)
    : (r: HttpRequest<ChatPayload>)
    ensures r.url == baseUrl && r.body == payload
    ensures ("Authorization", "Bearer " + apiKey) in r.headers
  {
    HttpRequest(baseUrl, BearerHeaders(apiKey), payload)
  }

  /** The unary call: the reply body unchanged, or the upstream error tagged with `provider`. */
  function CompatibleChat(provider: string, reply: Reply): (r: Result<Json, GatewayError>)
    ensures r.Ok? <==> reply.Replied?
    ensures reply.Replied? ==> r.value == reply.data
    ensures reply.Failed? ==> r.error == UpstreamError(reply.errorData, "code", ChatFailureMessage, provider)
  {
    match reply
    case Replied(data) => Ok(data)
    case Failed(errorData) => Err(UpstreamError(errorData, "code", ChatFailureMessage, provider))
  }

  /**
   * One stream line: a `data: [DONE]` line ends the stream; any other `data: ` line
   * yields its JSON when it parses; every other line is ignored.
   */
  function SseStep(parse: string -> Option<Json>, line: string): (s: Step<Json>)
    ensures s.stop <==> StartsWith(line, DataPrefix) && line[|DataPrefix|..] == DoneMarker
    ensures s.emit.Some? ==> StartsWith(line, DataPrefix) && parse(line[|DataPrefix|..]) == s.emit
    ensures !StartsWith(line, DataPrefix) ==> s == Step(None, false)
  {
    if StartsWith(line, DataPrefix) then
      var data := line[|DataPrefix|..];
      if data == DoneMarker then Step(None, true) else Step(parse(data), false)
    else Step(None, false)
  }

  /** The stream classifier of an OpenAI-compatible adapter. */
  function SseClassifier(parse: string -> Option<Json>): string -> Step<Json> {
    line => SseStep(parse, line)
  }

  /** True for the payload of a `data: ` line that the stream yields. */
  predicate IsDataLine(parse: string -> Option<Json>, line: string) {
    StartsWith(line, DataPrefix) && line[|DataPrefix|..] != DoneMarker && parse(line[|DataPrefix|..]).Some?
  }

  /**
   * The reference for what a stream yields: the parsed payload of every `data: `
   * line other than `[DONE]` that parses, in order.
   */
  function ParsedData(parse: string -> Option<Json>, lines: seq<string>): seq<Json> {
    if |lines| == 0 then []
    else
      var here := if IsDataLine(parse, lines[0]) then [parse(lines[0][|DataPrefix|..]).value] else [];
      here + ParsedData(parse, lines[1..])
  }

  /** The error a failed stream raises. */
  function StreamError(provider: string): Option<Json> -> GatewayError {
    errorData => UpstreamError(errorData, "code", StreamFailureMessage, provider)
  }

  /** What an OpenAI-compatible stream yields and raises. */
  function CompatibleStream(provider: string, reply: StreamReply, parse: string -> Option<Json>)
    : StreamResult<Json>
  {
    Finish(Frames(AllLines(reply.chunks), SseClassifier(parse)), reply.failure, StreamError(provider))
  }

  /** The streaming call: the nested loops over chunks and lines. */
  method CompatibleChatStream(provider: string, reply: StreamReply, parse: string -> Option<Json>)
    returns (r: StreamResult<Json>)
    ensures r == CompatibleStream(provider, reply, parse)
  {
    r := RunStream(reply.chunks, SseClassifier(parse), reply.failure, StreamError(provider));
  }

  // ---------------------------------------------------------------------------
  // The OpenAI adapter.

  function ChatRequest(apiKey: string, baseUrl: string, payload: ChatPayload): HttpRequest<ChatPayload> {
    CompatibleRequest(apiKey, baseUrl, payload)
  }

  function Chat(reply: Reply): (r: Result<Json, GatewayError>)
    ensures reply.Replied? ==> r == Ok(reply.data)
    ensures reply.Failed? ==> r.Err? && r.error.provider == "openai"
    ensures reply == Failed(None)
      ==> r == Err(BadGateway(JStr(ProviderErrorCode), JStr(ChatFailureMessage), "openai"))
  {
    CompatibleChat("openai", reply)
  }

  method ChatStream(reply: StreamReply, parse: string -> Option<Json>) returns (r: StreamResult<Json>)
    ensures r == CompatibleStream("openai", reply, parse)
  {
    r := CompatibleChatStream("openai", reply, parse);
  }

  // ---------------------------------------------------------------------------
  // Properties of the OpenAI-compatible stream.

  lemma {:induction false} EmittedIsParsedData(parse: string -> Option<Json>, lines: seq<string>)
    ensures Emitted(lines, SseClassifier(parse)) == ParsedData(parse, lines)
    decreases |lines|
  {
    if |lines| > 0 {
      EmittedIsParsedData(parse, lines[1..]);
    }
  }

  /** Only the line `data: [DONE]` ends the stream. */
  lemma OnlyDoneStops(parse: string -> Option<Json>, lines: seq<string>)
    requires forall k :: 0 <= k < |lines| ==> lines[k] != DataPrefix + DoneMarker
    ensures NoStop(lines, SseClassifier(parse))
  {
    forall k | 0 <= k < |lines| ensures !SseClassifier(parse)(lines[k]).stop {
      var line := lines[k];
      if StartsWith(line, DataPrefix) {
        assert line == DataPrefix + line[|DataPrefix|..];
      }
    }
  }

  /**
   * Without a `[DONE]` line the stream yields the parse of every well-formed
   * `data: ` line, in order across chunks, and then raises the upstream failure if any.
   */
  lemma StreamWithoutDone(provider: string, reply: StreamReply, parse: string -> Option<Json>)
    requires forall k :: 0 <= k < |AllLines(reply.chunks)| ==> AllLines(reply.chunks)[k] != DataPrefix + DoneMarker
    ensures CompatibleStream(provider, reply, parse).items == ParsedData(parse, AllLines(reply.chunks))
    ensures CompatibleStream(provider, reply, parse).error
      == (if reply.failure.Some? then Some(StreamError(provider)(reply.failure.value)) else None)
  {
    var lines := AllLines(reply.chunks);
    OnlyDoneStops(parse, lines);
    FramesNoStop(lines, SseClassifier(parse));
    EmittedIsParsedData(parse, lines);
  }

  /** The chunk `data: [DONE]` is one line, and it ends the stream. */
  lemma DoneChunk(parse: string -> Option<Json>)
    ensures AllLines([DataPrefix + DoneMarker]) == [DataPrefix + DoneMarker]
    ensures Frames([DataPrefix + DoneMarker], SseClassifier(parse)) == Framed([], true)
  {
    var done := DataPrefix + DoneMarker;
    assert done == "data: [DONE]";
    SingleLineChunk(done);
    assert done[..|DataPrefix|] == DataPrefix && done[|DataPrefix|..] == DoneMarker;
  }

  /**
   * A chunk `data: [DONE]` ends the stream: nothing in later chunks is yielded
   * and a later failure is never raised.
   */
  lemma DoneEndsStream(provider: string, before: seq<string>, after: seq<string>,
                       failure: Option<Option<Json>>, parse: string -> Option<Json>)
    requires forall k :: 0 <= k < |AllLines(before)| ==> AllLines(before)[k] != DataPrefix + DoneMarker
    ensures CompatibleStream(provider, StreamReply(before + [DataPrefix + DoneMarker] + after, failure), parse)
      == StreamResult(ParsedData(parse, AllLines(before)), None)
  {
    var classify := SseClassifier(parse);
    var done := DataPrefix + DoneMarker;
    var lines := AllLines(before);
    DoneChunk(parse);
    AllLinesAppend(before, [done]);
    OnlyDoneStops(parse, lines);
    FramesNoStop(lines, classify);
    FramesAppend(lines, [done], classify);
    StreamStopIgnoresLaterChunks(before + [done], after, classify);
    EmittedIsParsedData(parse, lines);
  }
}
