/**
 * The provider router (providers/provider-router.service.ts): it picks the
 * credentials for a request from the project's multi-provider or legacy
 * configuration, builds the OpenAI-style payload, and dispatches on the
 * provider tag to one of the four adapters.
 */
module ProviderRouter {

  import opened Wrappers
  import opened Payloads
  import opened Projects
  import opened ModelResolver

  /** `DEFAULT_BASE_URLS[tag]`: `undefined` for a tag that is not a provider type. */
  function DefaultBaseUrl(tag: string): (r: Option<string>)
    ensures r.Some? <==> ParseProvider(tag).Some?
    ensures tag == "other" ==> r == Some("")
  {
    match ParseProvider(tag)
    case None => None
    case Some(p) =>
      Some(match p
        case OpenAI => "https://api.openai.com/v1/chat/completions"
        case Anthropic => "https://api.anthropic.com/v1/messages"
        case Google => "https://generativelanguage.googleapis.com/v1beta/models/gemini-pro:generateContent"
        case XAI => "https://api.x.ai/v1/chat/completions"
        case Other => "")
  }

  /** The resolved provider tag, API key and base URL (`None` when it is `undefined`). */
  datatype Credentials = Credentials(provider: string, apiKey: string, baseUrl: Option<string>)

  /** `baseUrl || DEFAULT_BASE_URLS[tag]`. */
  function BaseUrlOr(baseUrl: string, tag: string): (r: Option<string>)
    ensures baseUrl != "" ==> r == Some(baseUrl)
    ensures baseUrl == "" ==> r == DefaultBaseUrl(tag)
  {
    if baseUrl != "" then Some(baseUrl) else DefaultBaseUrl(tag)
  }

  function CannotDetermine(model: string): string {
    "Cannot determine provider for model \"" + model
      + "\". Configure the model's provider or use a known model name."
  }

  const NotConfigured: string := "Project is not configured. Please set up your AI provider and API key in the dashboard."

  function ResolveProviderCredentials(project: Project, model: string): (r: Result<Credentials, string>)
    // The model's provider, when it has an entry.
    ensures |project.providerKeys| > 0 && ResolveModelProvider(model).Some?
            && Lookup(project.providerKeys, ProviderName(ResolveModelProvider(model).value)).Some?
      ==> var name := ProviderName(ResolveModelProvider(model).value);
          var entry := Lookup(project.providerKeys, name).value;
          r == Ok(Credentials(name, entry.apiKey, BaseUrlOr(entry.baseUrl, name)))
    // Otherwise the only configured provider, whatever the model.
    ensures |project.providerKeys| == 1
            && (ResolveModelProvider(model).None?
                || Lookup(project.providerKeys, ProviderName(ResolveModelProvider(model).value)).None?)
      ==> var (name, entry) := project.providerKeys[0];
          r == Ok(Credentials(name, entry.apiKey, BaseUrlOr(entry.baseUrl, name)))
    // Otherwise, with several configured, an error.
    ensures |project.providerKeys| > 1
            && (ResolveModelProvider(model).None?
                || Lookup(project.providerKeys, ProviderName(ResolveModelProvider(model).value)).None?)
      ==> r == Err(CannotDetermine(model))
    // Without multi-provider keys, the legacy configuration when both parts are set.
    ensures |project.providerKeys| == 0
      ==> r == if project.provider != "" && project.openaiApiKey != ""
               then Ok(Credentials(project.provider, project.openaiApiKey, BaseUrlOr(project.baseUrl, project.provider)))
               else Err(NotConfigured)
  {
    var modelProvider := ResolveModelProvider(model);
    if |project.providerKeys| > 0 then
      if modelProvider.Some? && Lookup(project.providerKeys, ProviderName(modelProvider.value)).Some? then
        var name := ProviderName(modelProvider.value);
        var entry := Lookup(project.providerKeys, name).value;
        Ok(Credentials(name, entry.apiKey, BaseUrlOr(entry.baseUrl, name)))
      else if |project.providerKeys| == 1 then
        var (name, entry) := project.providerKeys[0];
        Ok(Credentials(name, entry.apiKey, BaseUrlOr(entry.baseUrl, name)))
      else
        Err(CannotDetermine(model))
    else if project.provider != "" && project.openaiApiKey != "" then
      Ok(Credentials(project.provider, project.openaiApiKey, BaseUrlOr(project.baseUrl, project.provider)))
    else
      Err(NotConfigured)
  }

  /** `buildPayload`: temperature and top_p default only when absent (`??`), so 0 is kept. */
  function BuildPayload(body: ChatBody, stream: bool): (p: ChatPayload)
    ensures p.model == body.model && p.messages == body.messages && p.maxTokens == body.maxTokens
    ensures p.temperature == (if body.temperature.Some? then body.temperature.value else 0.7)
    ensures p.topP == (if body.topP.Some? then body.topP.value else 1.0)
    ensures p.stream == stream
  {
    ChatPayload(body.model, body.messages, body.maxTokens,
                body.temperature.GetOr(0.7), body.topP.GetOr(1.0), stream)
  }

  /** The four adapters. */
  datatype Adapter = OpenAIAdapter | AnthropicAdapter | GoogleAdapter | XAIAdapter

  /** The switch on the provider tag; 'other' is treated as OpenAI-compatible. */
  function Dispatch(tag: string): (r: Result<Adapter, string>)
    ensures r.Err? <==> ParseProvider(tag).None?
    ensures r.Err? ==> r.error == "Unsupported provider: " + tag
    ensures tag == "other" ==> r == Ok(OpenAIAdapter)
  {
    match ParseProvider(tag)
    case None => Err("Unsupported provider: " + tag)
    case Some(p) =>
      Ok(match p
        case OpenAI => OpenAIAdapter
        case Anthropic => AnthropicAdapter
        case Google => GoogleAdapter
        case XAI => XAIAdapter
        case Other => OpenAIAdapter)
  }

  /** Where a chat request goes: the adapter, its API key and base URL, and the payload. */
  datatype Route = Route(adapter: Adapter, apiKey: string, baseUrl: Option<string>, payload: ChatPayload)

  /** `forwardChat` (`stream == false`) and `forwardChatStream` (`stream == true`) up to the adapter call. */
  function Forward(project: Project, body: ChatBody, stream: bool): (r: Result<Route, string>)
    ensures ResolveProviderCredentials(project, body.model).Err? ==> r == Err(ResolveProviderCredentials(project, body.model).error)
    ensures r.Ok? ==> ResolveProviderCredentials(project, body.model).Ok?
                      && var c := ResolveProviderCredentials(project, body.model).value;
                      && Dispatch(c.provider) == Ok(r.value.adapter)
                      && r.value.apiKey == c.apiKey && r.value.baseUrl == c.baseUrl
                      && r.value.payload == BuildPayload(body, stream)
    // A resolved provider the switch knows is routed; any other tag is unsupported.
    ensures ResolveProviderCredentials(project, body.model).Ok?
            && Dispatch(ResolveProviderCredentials(project, body.model).value.provider).Ok?
      ==> r.Ok?
    ensures ResolveProviderCredentials(project, body.model).Ok?
            && Dispatch(ResolveProviderCredentials(project, body.model).value.provider).Err?
      ==> r == Err("Unsupported provider: " + ResolveProviderCredentials(project, body.model).value.provider)
  {
    match ResolveProviderCredentials(project, body.model)
    case Err(e) => Err(e)
    case Ok(c) =>
      match Dispatch(c.provider)
      case Err(e) => Err(e)
      case Ok(adapter) => Ok(Route(adapter, c.apiKey, c.baseUrl, BuildPayload(body, stream)))
  }

  // ---------------------------------------------------------------------------
  // Properties.

  /** Every request that is dispatched has a base URL: a configured one or the provider default. */
  lemma DispatchedHasBaseUrl(project: Project, body: ChatBody, stream: bool)
    requires Forward(project, body, stream).Ok?
    ensures Forward(project, body, stream).value.baseUrl.Some?
  {
    var c := ResolveProviderCredentials(project, body.model).value;
    assert Dispatch(c.provider).Ok?;
  }

  /** The unary and the streaming call route alike and differ only in the payload's `stream` flag. */
  lemma StreamingRoutesAlike(project: Project, body: ChatBody)
    ensures Forward(project, body, false).Ok? <==> Forward(project, body, true).Ok?
    ensures Forward(project, body, false).Ok? ==>
      Forward(project, body, true).value == Forward(project, body, false).value.(payload := BuildPayload(body, true))
    ensures Forward(project, body, false).Err? ==> Forward(project, body, true) == Forward(project, body, false)
  {
  }

  /** A configured entry for a model the resolver knows is used even when other providers are configured. */
  lemma KnownModelUsesItsProvider(project: Project, model: string, p: Provider, key: ProviderKey)
    requires ResolveModelProvider(model) == Some(p)
    requires Lookup(project.providerKeys, ProviderName(p)) == Some(key)
    ensures ResolveProviderCredentials(project, model)
      == Ok(Credentials(ProviderName(p), key.apiKey, BaseUrlOr(key.baseUrl, ProviderName(p))))
  {
    assert project.providerKeys != [];
  }

  /** A legacy 'other' provider without a base URL is sent to the OpenAI adapter with the empty URL. */
  lemma LegacyOtherGoesToOpenAI(project: Project, body: ChatBody, stream: bool)
    requires project.providerKeys == [] && project.provider == "other"
    requires project.openaiApiKey != "" && project.baseUrl == ""
    ensures Forward(project, body, stream)
      == Ok(Route(OpenAIAdapter, project.openaiApiKey, Some(""), BuildPayload(body, stream)))
  {
  }
}
