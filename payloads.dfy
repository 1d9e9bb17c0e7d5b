/**
 * Values exchanged between the provider router and the provider adapters: the
 * client's chat body, the OpenAI-style payload built from it, outgoing HTTP
 * requests, the upstream's answer, and the BadGateway error every adapter raises.
 */
module Payloads {

  import opened Wrappers
  import opened Json

  datatype Message = Message(role: string, content: string)

  /** The fields of the client's chat body the router reads; absent fields are `None`. */
  datatype ChatBody = ChatBody(
    model: string,
    messages: seq<Message>,
    maxTokens: Option<int>,
    temperature: Option<real>,
    topP: Option<real>)

  /** The OpenAI-style payload handed to an adapter. */
  datatype ChatPayload = ChatPayload(
    model: string,
    messages: seq<Message>,
    maxTokens: Option<int>,
    temperature: real,
    topP: real,
    stream: bool)

  /** An outgoing POST: URL, headers in order, body. */
  datatype HttpRequest<B> = HttpRequest(url: string, headers: seq<(string, string)>, body: B)

  /**
   * The upstream's answer to a unary POST: the response body, or a failure carrying
   * `error.response?.data` (`None` when there was no response or it had no body).
   */
  datatype Reply = Replied(data: Json) | Failed(errorData: Option<Json>)

  /**
   * The upstream's answer to a streaming POST: the chunks delivered, then either a
   * normal end (`failure == None`) or a failure with its `error.response?.data`.
   * A POST that fails outright delivers no chunk.
   */
  datatype StreamReply = StreamReply(chunks: seq<string>, failure: Option<Option<Json>>)

  /** The body of the BadGateway exception the adapters raise. */
  datatype GatewayError = BadGateway(error: Json, message: Json, provider: string)

  /** What a streaming adapter produces: the items yielded, then possibly an error. */
  datatype StreamResult<T> = StreamResult(items: seq<T>, error: Option<GatewayError>)

  /** An OpenAI-style completion, as the Anthropic and Google adapters build it. */
  datatype Completion = Completion(
    id: Option<Json>,
    created: int,
    model: Option<Json>,
    content: Json,
    finishReason: Option<Json>,
    promptTokens: Json,
    completionTokens: Json,
    totalTokens: Json)

  /** An OpenAI-style stream chunk carrying one piece of text. */
  datatype Chunk = Chunk(id: Json, created: int, model: string, content: Json)

  const ChatFailureMessage: string := "Failed to communicate with AI service"
  const StreamFailureMessage: string := "Failed to stream from AI service"
  const ProviderErrorCode: string := "provider_error"

  /**
   * The error every adapter raises: the upstream's `error.<codeKey>` or
   * 'provider_error', and its `error.message` or the default message.
   */
  function UpstreamError(errorData: Option<Json>, codeKey: string, defaultMessage: string, provider: string)
    : (e: GatewayError)
    ensures e.provider == provider
    ensures IsTruthy(OptDot(OptDot(errorData, "error"), "message"))
      ==> Some(e.message) == OptDot(OptDot(errorData, "error"), "message")
    ensures !IsTruthy(OptDot(OptDot(errorData, "error"), "message")) ==> e.message == JStr(defaultMessage)
    ensures IsTruthy(OptDot(OptDot(errorData, "error"), codeKey))
      ==> Some(e.error) == OptDot(OptDot(errorData, "error"), codeKey)
    ensures !IsTruthy(OptDot(OptDot(errorData, "error"), codeKey)) ==> e.error == JStr(ProviderErrorCode)
  {
    var upstream := OptDot(errorData, "error");
    BadGateway(Or(OptDot(upstream, codeKey), JStr(ProviderErrorCode)), Or(OptDot(upstream, "message"), JStr(defaultMessage)), provider)
  }

  /** `Math.floor(now / 1000)` for a millisecond clock reading. */
  function Seconds(nowMs: int): int {
    nowMs / 1000
  }

  /** `usage?.<key> || 0`. */
  function TokenCount(usage: Option<Json>, key: string): (t: Json)
    ensures IsTruthy(OptDot(usage, key)) ==> t == OptDot(usage, key).value
    ensures !IsTruthy(OptDot(usage, key)) ==> t == JNum(0)
  {
    Or(OptDot(usage, key), JNum(0))
  }

  /** The texts carried by a sequence of chunks. */
  function Texts(chunks: seq<Chunk>): (r: seq<Json>)
    ensures |r| == |chunks|
    ensures forall k :: 0 <= k < |chunks| ==> r[k] == chunks[k].content
  {
    if |chunks| == 0 then [] else [chunks[0].content] + Texts(chunks[1..])
  }

  lemma {:induction false} TextsAppend(a: seq<Chunk>, b: seq<Chunk>)
    ensures Texts(a + b) == Texts(a) + Texts(b)
  {
  }
}
