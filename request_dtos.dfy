/**
 * The request bodies declared for the proxy (proxy/dto/chat-completions.dto.ts):
 * their declared bounds as predicates, and the list of violated properties that a
 * check of those decorators reports, in declaration order. The proxy's handlers
 * take the body untyped, so these bounds describe the declared contract of the
 * endpoints; they are not applied to the requests the handlers serve.
 */
module RequestDtos {

  import opened Wrappers

  datatype MessageDto = MessageDto(role: string, content: string)

  datatype ChatCompletionsDto = ChatCompletionsDto(
    model: string,
    messages: seq<MessageDto>,
    maxTokens: Option<int>,
    temperature: Option<real>,
    topP: Option<real>,
    stream: Option<bool>,
    n: Option<int>,
    stop: Option<seq<string>>,
    presencePenalty: Option<real>,
    frequencyPenalty: Option<real>,
    user: Option<string>)

  datatype ImageGenerationDto = ImageGenerationDto(
    prompt: string,
    model: Option<string>,
    n: Option<int>,
    size: Option<string>,
    quality: Option<string>,
    style: Option<string>,
    responseFormat: Option<string>,
    user: Option<string>)

  /** `input` may be a string or a list of strings and carries no constraint. */
  datatype EmbeddingInput = Text(text: string) | Texts(texts: seq<string>)

  datatype EmbeddingsDto = EmbeddingsDto(
    model: string,
    input: EmbeddingInput,
    encodingFormat: Option<string>,
    dimensions: Option<int>,
    user: Option<string>)

  datatype AudioTranscriptionDto = AudioTranscriptionDto(
    model: Option<string>,
    language: Option<string>,
    prompt: Option<string>,
    responseFormat: Option<string>,
    temperature: Option<real>)

  const ImageSizes: seq<string> := ["256x256", "512x512", "1024x1024", "1792x1024", "1024x1792"]
  const ImageQualities: seq<string> := ["standard", "hd"]
  const ImageStyles: seq<string> := ["vivid", "natural"]
  const ImageResponseFormats: seq<string> := ["url", "b64_json"]
  const AudioResponseFormats: seq<string> := ["json", "text", "srt", "verbose_json", "vtt"]

  // ---------------------------------------------------------------------------
  // Optional constraints: an absent property passes.

  predicate InRange(x: Option<int>, lo: int, hi: int) {
    x.None? || lo <= x.value <= hi
  }

  predicate InRealRange(x: Option<real>, lo: real, hi: real) {
    x.None? || lo <= x.value <= hi
  }

  predicate MaxLen(x: Option<string>, n: int) {
    x.None? || |x.value| <= n
  }

  predicate OneOf(x: Option<string>, allowed: seq<string>) {
    x.None? || x.value in allowed
  }

  predicate ValidMessage(m: MessageDto) {
    |m.role| <= 50 && |m.content| <= 500000
  }

  predicate ValidStop(stop: Option<seq<string>>) {
    stop.None? || (|stop.value| <= 4 && forall i :: 0 <= i < |stop.value| ==> |stop.value[i]| <= 50)
  }

  /** The bounds `ChatCompletionsDto` declares. */
  predicate ValidChat(d: ChatCompletionsDto) {
    && |d.model| <= 128
    && |d.messages| <= 200 && (forall i :: 0 <= i < |d.messages| ==> ValidMessage(d.messages[i]))
    && InRange(d.maxTokens, 1, 128000)
    && InRealRange(d.temperature, 0.0, 2.0)
    && InRealRange(d.topP, 0.0, 1.0)
    && InRange(d.n, 1, 10)
    && ValidStop(d.stop)
    && InRealRange(d.presencePenalty, -2.0, 2.0)
    && InRealRange(d.frequencyPenalty, -2.0, 2.0)
    && MaxLen(d.user, 256)
  }

  predicate ValidImage(d: ImageGenerationDto) {
    && |d.prompt| <= 4000
    && MaxLen(d.model, 64)
    && InRange(d.n, 1, 10)
    && OneOf(d.size, ImageSizes)
    && OneOf(d.quality, ImageQualities)
    && OneOf(d.style, ImageStyles)
    && OneOf(d.responseFormat, ImageResponseFormats)
    && MaxLen(d.user, 256)
  }

  predicate ValidEmbeddings(d: EmbeddingsDto) {
    && |d.model| <= 64
    && MaxLen(d.encodingFormat, 64)
    && InRange(d.dimensions, 1, 3072)
    && MaxLen(d.user, 256)
  }

  predicate ValidAudio(d: AudioTranscriptionDto) {
    && MaxLen(d.model, 64)
    && MaxLen(d.language, 10)
    && MaxLen(d.prompt, 1000)
    && OneOf(d.responseFormat, AudioResponseFormats)
    && InRealRange(d.temperature, 0.0, 1.0)
  }

  // ---------------------------------------------------------------------------
  // The report of a decorator check: the failing properties, in declaration order.

  function Unless(ok: bool, property: string): (r: seq<string>)
    ensures r == [] <==> ok
  {
    if ok then [] else [property]
  }

  /** The index of the first invalid message, if any. */
  function FirstInvalidMessage(messages: seq<MessageDto>): (r: Option<nat>)
    ensures r.None? <==> forall i :: 0 <= i < |messages| ==> ValidMessage(messages[i])
    ensures r.Some? ==> r.value < |messages| && !ValidMessage(messages[r.value])
                        && forall i :: 0 <= i < r.value ==> ValidMessage(messages[i])
    decreases |messages|
  {
    if |messages| == 0 then None
    else if !ValidMessage(messages[0]) then Some(0)
    else
      match FirstInvalidMessage(messages[1..])
      case None => None
      case Some(k) => Some(k + 1)
  }

  function ChatViolations(d: ChatCompletionsDto): (r: seq<string>)
    ensures r == [] <==> ValidChat(d)
  {
    Unless(|d.model| <= 128, "model")
      + Unless(|d.messages| <= 200 && FirstInvalidMessage(d.messages).None?, "messages")
      + Unless(InRange(d.maxTokens, 1, 128000), "max_tokens")
      + Unless(InRealRange(d.temperature, 0.0, 2.0), "temperature")
      + Unless(InRealRange(d.topP, 0.0, 1.0), "top_p")
      + Unless(InRange(d.n, 1, 10), "n")
      + Unless(ValidStop(d.stop), "stop")
      + Unless(InRealRange(d.presencePenalty, -2.0, 2.0), "presence_penalty")
      + Unless(InRealRange(d.frequencyPenalty, -2.0, 2.0), "frequency_penalty")
      + Unless(MaxLen(d.user, 256), "user")
  }

  function ImageViolations(d: ImageGenerationDto): (r: seq<string>)
    ensures r == [] <==> ValidImage(d)
  {
    Unless(|d.prompt| <= 4000, "prompt")
      + Unless(MaxLen(d.model, 64), "model")
      + Unless(InRange(d.n, 1, 10), "n")
      + Unless(OneOf(d.size, ImageSizes), "size")
      + Unless(OneOf(d.quality, ImageQualities), "quality")
      + Unless(OneOf(d.style, ImageStyles), "style")
      + Unless(OneOf(d.responseFormat, ImageResponseFormats), "response_format")
      + Unless(MaxLen(d.user, 256), "user")
  }

  function EmbeddingsViolations(d: EmbeddingsDto): (r: seq<string>)
    ensures r == [] <==> ValidEmbeddings(d)
  {
    Unless(|d.model| <= 64, "model")
      + Unless(MaxLen(d.encodingFormat, 64), "encoding_format")
      + Unless(InRange(d.dimensions, 1, 3072), "dimensions")
      + Unless(MaxLen(d.user, 256), "user")
  }

  function AudioViolations(d: AudioTranscriptionDto): (r: seq<string>)
    ensures r == [] <==> ValidAudio(d)
  {
    Unless(MaxLen(d.model, 64), "model")
      + Unless(MaxLen(d.language, 10), "language")
      + Unless(MaxLen(d.prompt, 1000), "prompt")
      + Unless(OneOf(d.responseFormat, AudioResponseFormats), "response_format")
      + Unless(InRealRange(d.temperature, 0.0, 1.0), "temperature")
  }

  // ---------------------------------------------------------------------------
  // Properties.

  /** A valid chat body carries at most 200 × 500000 characters of message content. */
  lemma {:induction false} ValidChatContentBound(d: ChatCompletionsDto)
    requires ValidChat(d)
    ensures ContentLength(d.messages) <= 200 * 500000
  {
    ContentLengthBound(d.messages);
  }

  /** The total length of the messages' contents. */
  function ContentLength(messages: seq<MessageDto>): nat
    decreases |messages|
  {
    if |messages| == 0 then 0 else |messages[0].content| + ContentLength(messages[1..])
  }

  lemma {:induction false} ContentLengthBound(messages: seq<MessageDto>)
    requires forall i :: 0 <= i < |messages| ==> ValidMessage(messages[i])
    ensures ContentLength(messages) <= |messages| * 500000
    decreases |messages|
  {
    if |messages| > 0 {
      assert ValidMessage(messages[0]);
      ContentLengthBound(messages[1..]);
    }
  }

  /** The embeddings `input` is never reported, whatever it holds. */
  lemma EmbeddingInputUnconstrained(d: EmbeddingsDto, input: EmbeddingInput)
    ensures EmbeddingsViolations(d.(input := input)) == EmbeddingsViolations(d)
  {
  }
}
