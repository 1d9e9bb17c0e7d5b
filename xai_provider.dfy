/**
 * The xAI adapter (providers/xai-provider.service.ts): OpenAI-compatible, so it is
 * the OpenAI-compatible behaviour with the provider tag 'xai'.
 */
module XAIProvider {

  import opened Wrappers
  import opened Json
  import opened Payloads
  import OpenAIProvider

  function ChatRequest(apiKey: string, baseUrl: string, payload: ChatPayload): HttpRequest<ChatPayload> {
    OpenAIProvider.CompatibleRequest(apiKey, baseUrl, payload)
  }

  function Chat(reply: Reply): (r: Result<Json, GatewayError>)
    ensures reply.Replied? ==> r == Ok(reply.data)
    ensures reply.Failed? ==> r.Err? && r.error.provider == "xai"
    ensures reply == Failed(None)
      ==> r == Err(BadGateway(JStr(ProviderErrorCode), JStr(ChatFailureMessage), "xai"))
  {
    OpenAIProvider.CompatibleChat("xai", reply)
  }

  method ChatStream(reply: StreamReply, parse: string -> Option<Json>) returns (r: StreamResult<Json>)
    ensures r == OpenAIProvider.CompatibleStream("xai", reply, parse)
  {
    r := OpenAIProvider.CompatibleChatStream("xai", reply, parse);
  }

  /** The xAI adapter answers as the OpenAI adapter does, except that its errors name 'xai'. */
  lemma SameAsOpenAI(reply: Reply, sreply: StreamReply, parse: string -> Option<Json>)
    ensures Chat(reply).Ok? == OpenAIProvider.Chat(reply).Ok?
    ensures Chat(reply).Ok? ==> Chat(reply).value == OpenAIProvider.Chat(reply).value
    ensures Chat(reply).Err? ==> Chat(reply).error == OpenAIProvider.Chat(reply).error.(provider := "xai")
    ensures OpenAIProvider.CompatibleStream("xai", sreply, parse).items
      == OpenAIProvider.CompatibleStream("openai", sreply, parse).items
  {
  }
}
