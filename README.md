# airatelimit gateway — a verified model of its admission and translation core

airatelimit is an HTTP gateway in front of AI providers (OpenAI, Anthropic,
Google Gemini, xAI). A project holds its provider keys and its limits; every
request names the end user (the *identity*), optionally a tier and a session.
The gateway validates the request, throttles it per client IP and per project
key, checks and charges the identity's usage for the current period (daily,
weekly or monthly), may rewrite PII in the prompt, forwards the request to the
provider, translates the reply and its stream to the OpenAI format, and
finalizes the usage with the tokens the provider reports.

This project models that core in Dafny, one module per source file:

- `Usage` — the usage counters keyed by (project, identity, period start), the
  tier or project limits, the templated limit response, `finalizeUsage` and the
  project summary; the counter table is a `map` inside the class `UsageService`.
- `FlowExecutor` — the bounded walk (at most 50 visits) over a graph of typed
  nodes that decides allow or block.
- `ModelResolver` — the model-name to provider lookup: known-model table first,
  then ordered prefix patterns.
- `ProviderRouter` — credential resolution, the outgoing payload and dispatch to
  an adapter.
- `OpenAIProvider`, `XAIProvider`, `AnthropicProvider`, `GoogleProvider` — the
  request and reply translation, error mapping, and stream parsing of each
  adapter; `StreamFraming` is the chunk-and-line loop they share, `Payloads` the
  shared request and reply types.
- `RateLimit` — the in-memory fixed-window throttle (120 a minute per IP, 600 a
  minute per project key) as classes over mutable maps.
- `TransparentProxy` — the period start, the token estimate, the order of the
  admission steps in the chat and image handlers, and the stream relay that
  accumulates token counts.
- `Anonymization` — the PII masking passes, the offset-tracked splice, the
  masking styles, message mapping, detection and the 32-bit hash.
- `IdentityLimits` — the per-identity overrides table with upsert, update,
  delete and bulk upsert, as a class over a `map`.
- `ProxyHeaders`, `RequestDtos` — the header validator and the declared bounds of
  the request bodies.
- Shared: `Wrappers` (Option and Result), `Strings` (the JavaScript string
  operations the code uses), `Json` (a JSON value with JavaScript truthiness,
  property access and `||`), `Projects` (the project record).

The clock, the regular-expression engine, `JSON.parse`/`JSON.stringify` and the
services whose code is not part of this model are parameters: a reading `now`,
an oracle `exec(pattern, text)` returning the matches in order, a `parse`
function, and the collaborators' answers.

## Model

| member | source | states |
|---|---|---|
| ModelResolver.ParseProvider | src/providers/model-resolver.ts:6 | a tag parses to the provider whose name it is, and to that provider whenever one has that name |
| ModelResolver.LookupKnown | src/providers/model-resolver.ts:90-92 | the exact-table lookup finds an entry `(name, p)` of the table, and finds nothing only when no key equals the name |
| ModelResolver.FirstPatternMatch | src/providers/model-resolver.ts:95-101 | the pattern scan returns a provider, in scan order, one of whose prefixes starts the name; nothing only when no provider's prefix does |
| ModelResolver.ResolveModelProvider | src/providers/model-resolver.ts:84-104 | the empty name is null; a provider comes from the exact entry of the lower-cased, trimmed name, or, when that name is no key, from a pattern matching the raw name; null exactly when neither finds one |
| ModelResolver.IsModelFromProvider | src/providers/model-resolver.ts:123-126 | a name is from `p` only through its exact entry or a `p` pattern, and a name outside the table that a `p` pattern matches is from `p` |
| ModelResolver.ModelsFor | src/providers/model-resolver.ts:112-114 | the filtered names are exactly the table keys mapped to the provider |
| ModelResolver.GetModelsForProvider | src/providers/model-resolver.ts:111-115 | `getModelsForProvider(p)` holds exactly the known names mapped to `p` |
| ModelResolver.GetAllModelsByProvider | src/providers/model-resolver.ts:131-145 | every provider, `other` included, has a bucket, and each bucket equals `getModelsForProvider` of that provider |
| ModelResolver.Bucket | src/providers/model-resolver.ts:132-142 | the loop that pushes each entry onto its provider's bucket yields, for every provider, that provider's names in table order |
| ModelResolver.ModelsForSnoc | src/providers/model-resolver.ts:140-142 | one more table entry adds its name to its own provider's list and to no other |
| ModelResolver.GptFourONames | src/providers/model-resolver.ts:38-39 | these keys are lower-case and trimmed, and a prefix of their own provider's patterns starts them |
| ModelResolver.GptFourTurboNames | src/providers/model-resolver.ts:40-41 | these keys are normalised and a prefix of their own provider's patterns starts them |
| ModelResolver.GptFourNames | src/providers/model-resolver.ts:42-43 | these keys are normalised and a prefix of their own provider's patterns starts them |
| ModelResolver.GptThreeFiveNames | src/providers/model-resolver.ts:44-45 | these keys are normalised and a prefix of their own provider's patterns starts them |
| ModelResolver.OneSeriesNames | src/providers/model-resolver.ts:46-47 | these keys are normalised and a prefix of their own provider's patterns starts them |
| ModelResolver.ReasoningNames | src/providers/model-resolver.ts:48-49 | these keys are normalised and a prefix of their own provider's patterns starts them |
| ModelResolver.ClaudeSonnetNames | src/providers/model-resolver.ts:52-53 | these keys are normalised and a prefix of their own provider's patterns starts them |
| ModelResolver.ClaudeHaikuNames | src/providers/model-resolver.ts:54-57 | these keys are normalised and a prefix of their own provider's patterns starts them |
| ModelResolver.ClaudeThreeNames | src/providers/model-resolver.ts:55-56 | these keys are normalised and a prefix of their own provider's patterns starts them |
| ModelResolver.ClaudeEarlierNames | src/providers/model-resolver.ts:58-60 | these keys are normalised and a prefix of their own provider's patterns starts them |
| ModelResolver.GeminiTwoNames | src/providers/model-resolver.ts:63-65 | these keys are normalised and a prefix of their own provider's patterns starts them |
| ModelResolver.GeminiOneNames | src/providers/model-resolver.ts:66-68 | these keys are normalised and a prefix of their own provider's patterns starts them |
| ModelResolver.GeminiProNames | src/providers/model-resolver.ts:69-70 | these keys are normalised and a prefix of their own provider's patterns starts them |
| ModelResolver.GrokNames | src/providers/model-resolver.ts:73-76 | these keys are normalised and a prefix of their own provider's patterns starts them |
| ModelResolver.OpenAIGroupAgrees | src/providers/model-resolver.ts:37-49 | every OpenAI key of the table agrees with the OpenAI patterns |
| ModelResolver.AnthropicGroupAgrees | src/providers/model-resolver.ts:51-60 | every Anthropic key agrees with the Anthropic pattern |
| ModelResolver.GoogleGroupAgrees | src/providers/model-resolver.ts:62-70 | every Google key agrees with the Google patterns |
| ModelResolver.XAIGroupAgrees | src/providers/model-resolver.ts:72-76 | every xAI key agrees with the xAI pattern |
| ModelResolver.TableAgreesWithPatterns | src/providers/model-resolver.ts:36-77 | every key of `KNOWN_MODELS` is already normalised and is matched by a pattern of the provider it maps to |
| ModelResolver.PatternsDisjoint | src/providers/model-resolver.ts:9-33 | no name is matched by patterns of two different providers |
| ModelResolver.ResolveEmpty | src/providers/model-resolver.ts:85 | the empty name resolves to null |
| ModelResolver.ResolveNeverOther | src/providers/model-resolver.ts:84-104 | no name resolves to `other` |
| ModelResolver.KnownModelsResolve | src/providers/model-resolver.ts:87-92 | every table key resolves to the provider the table maps it to |
| ModelResolver.KnownExamples | src/providers/model-resolver.ts:53-75 | Claude, Gemini, Grok and GPT examples from the table resolve to their providers |
| ModelResolver.UpperCaseNameResolves | src/providers/model-resolver.ts:87-91 | the exact lookup lower-cases first, so "GPT-4o" is OpenAI |
| ModelResolver.PaddedNameResolves | src/providers/model-resolver.ts:87-91 | the exact lookup trims first, so " gpt-4o " is OpenAI |
| ModelResolver.UnknownGptIsOpenAI | src/providers/model-resolver.ts:94-101 | "gpt-5", not in the table, falls back to the patterns and is OpenAI |
| ModelResolver.NoLeadKeyNoMatch | src/providers/model-resolver.ts:95-101 | a name whose first two lower-cased characters start no pattern matches no provider |
| ModelResolver.LeadingBlankDefeatsPatterns | src/providers/model-resolver.ts:94-103 | patterns test the untrimmed name, so " gpt-5" resolves to null |
| ModelResolver.UnknownModelResolvesToNothing | src/providers/model-resolver.ts:103 | "unknown-model-xyz" resolves to null |
| ModelResolver.ClaudePrefixIsAnthropic | src/providers/model-resolver.ts:94-101 | any name outside the table that starts with "claude", in any case, is Anthropic |
| ModelResolver.IsModelFromProviderIff | src/providers/model-resolver.ts:123-126 | `isModelFromProvider(m, p)` holds exactly when `m` resolves to `p`, and never for `other` |
| ModelResolver.OtherBucketEmpty | src/providers/model-resolver.ts:132-142 | the `other` bucket stays empty |
| ModelResolver.BucketsPartition | src/providers/model-resolver.ts:140-142 | each known name is in its own provider's bucket and in no other |
| Payloads.UpstreamError | src/providers/openai-provider.service.ts:30-37 | the error carries the upstream `error.message` when truthy, else the default message, and the upstream code when truthy, else 'provider_error', under the adapter's name |
| Payloads.TokenCount | src/providers/anthropic-provider.service.ts:47-48 | a usage count is the upstream value when truthy and 0 otherwise |
| OpenAIProvider.CompatibleRequest | src/providers/openai-provider.service.ts:12-17 | the payload is posted unchanged to the base URL with a Bearer token of the key |
| OpenAIProvider.CompatibleChat | src/providers/openai-provider.service.ts:9-38 | a reply body is returned unchanged, and a failure becomes the upstream error under the adapter's name; success exactly when the upstream replied |
| OpenAIProvider.SseStep | src/providers/openai-provider.service.ts:65-76 | a line stops the stream exactly when it is `data: [DONE]`; anything yielded is the parse of a `data: ` line's rest; other lines are ignored |
| OpenAIProvider.CompatibleChatStream | src/providers/openai-provider.service.ts:59-95 | the nested loops over chunks and lines produce exactly the specified stream: the parsed `data:` lines up to `[DONE]`, then the failure if no `[DONE]` came |
| OpenAIProvider.Chat | src/providers/openai-provider.service.ts:9-38 | a reply is passed through; a failure is a bad-gateway error naming 'openai', with the default code and message when the upstream sent no body |
| OpenAIProvider.ChatStream | src/providers/openai-provider.service.ts:41-96 | the streaming call is the compatible stream under the name 'openai' |
| OpenAIProvider.EmittedIsParsedData | src/providers/openai-provider.service.ts:65-76 | over lines without `[DONE]` the yielded items are the successful parses of the `data: ` lines, in order |
| OpenAIProvider.OnlyDoneStops | src/providers/openai-provider.service.ts:68-70 | no line other than `data: [DONE]` ends the stream |
| OpenAIProvider.StreamWithoutDone | src/providers/openai-provider.service.ts:59-95 | without `[DONE]`, the stream yields the parse of every well-formed `data: ` line across chunks and then raises the upstream failure if there is one |
| OpenAIProvider.DoneChunk | src/providers/openai-provider.service.ts:60-70 | the chunk `data: [DONE]` is one line and ends the stream having yielded nothing |
| OpenAIProvider.DoneEndsStream | src/providers/openai-provider.service.ts:68-70 | after a `[DONE]` chunk nothing from later chunks is yielded and a later failure is never raised |
| XAIProvider.Chat | src/providers/xai-provider.service.ts:9-38 | a reply is passed through; a failure is a bad-gateway error naming 'xai' |
| XAIProvider.ChatStream | src/providers/xai-provider.service.ts:40-97 | the streaming call is the compatible stream under the name 'xai' |
| XAIProvider.SameAsOpenAI | src/providers/xai-provider.service.ts:9-97 | the xAI adapter answers and streams as the OpenAI adapter does, its errors differing only in the provider name |
| AnthropicProvider.MaxTokens | src/providers/anthropic-provider.service.ts:14 | `max_tokens` is the requested value unless absent or 0, then 1024 |
| AnthropicProvider.ChatRequest | src/providers/anthropic-provider.service.ts:12-27 | the request goes to the base URL with the key and API version headers, carrying model, messages, temperature and top_p unchanged, the defaulted `max_tokens`, and `stream: true` only when streaming |
| AnthropicProvider.MapReply | src/providers/anthropic-provider.service.ts:31-51 | the reply maps to a completion with the upstream id, model and stop reason, the first content text or '', and the token counts with their sum; it throws exactly when the body or its `content` is missing |
| AnthropicProvider.Chat | src/providers/anthropic-provider.service.ts:9-67 | a failure is the upstream error with its `type` as code; a body that cannot be mapped is the default bad-gateway error; otherwise the mapped completion |
| AnthropicProvider.EventStep | src/providers/anthropic-provider.service.ts:111-131 | an event yields a chunk exactly when it is a `content_block_delta` with truthy text, carrying that text, and stops exactly on `message_stop`; never both |
| AnthropicProvider.ChatStream | src/providers/anthropic-provider.service.ts:98-153 | the nested loops over chunks and lines produce exactly the specified event stream |
| AnthropicProvider.EmittedTexts | src/providers/anthropic-provider.service.ts:111-127 | the texts yielded over events without `message_stop` are the delta texts, in order |
| AnthropicProvider.StreamYieldsDeltas | src/providers/anthropic-provider.service.ts:98-153 | without `message_stop`, the stream yields exactly the text deltas in order and ends with an error exactly when the upstream failed |
| AnthropicProvider.MessageStopEndsStream | src/providers/anthropic-provider.service.ts:129-131 | the first `message_stop` ends the stream: only the deltas before it are yielded and a later failure is not raised |
| AnthropicProvider.ChunksWellFormed | src/providers/anthropic-provider.service.ts:112-126 | every yielded chunk names the requested model, carries non-empty text and the current second |
| AnthropicProvider.MissingContentIsDefaultError | src/providers/anthropic-provider.service.ts:31-66 | a reply body without `content` is reported as the default bad-gateway error |
| AnthropicProvider.UsageCounts | src/providers/anthropic-provider.service.ts:47-49 | numeric token counts are copied and the total is their sum |
| AnthropicProvider.ErrorCodeIsType | src/providers/anthropic-provider.service.ts:59-66 | the upstream error's `type`, not its `code`, becomes the error code, next to its message |
| GoogleProvider.GeminiRole | src/providers/google-provider.service.ts:14 | the role is 'model' exactly for 'assistant' and 'user' for everything else |
| GoogleProvider.Contents | src/providers/google-provider.service.ts:13-16 | one content per message, in order, with the mapped role and the message's text |
| GoogleProvider.MaxOutputTokens | src/providers/google-provider.service.ts:20 | `maxOutputTokens` is the requested value unless absent or 0, then 2048 |
| GoogleProvider.ChatRequest | src/providers/google-provider.service.ts:12-32 | the unary URL is the base URL with the key appended; the streaming URL first swaps `generateContent` for `streamGenerateContent`; the body is the Gemini payload |
| GoogleProvider.FinishReason | src/providers/google-provider.service.ts:48 | a missing or empty finish reason is 'stop', a string one is lower-cased, and any other value throws |
| GoogleProvider.MapReply | src/providers/google-provider.service.ts:35-56 | the reply maps to a completion with a time-based id, the requested model, the first candidate's text or '', the finish reason and the three usage counts; it throws exactly when the body is missing or the finish reason is not a string |
| GoogleProvider.GoogleError | src/providers/google-provider.service.ts:64-71 | the error code is the upstream code or 'provider_error' passed through `String`, the message is as for the other adapters, the provider is 'google' |
| GoogleProvider.Chat | src/providers/google-provider.service.ts:9-73 | a failure is the Google error; a body that cannot be mapped is the default bad-gateway error; otherwise the mapped completion |
| GoogleProvider.EventStep | src/providers/google-provider.service.ts:114-142 | a document yields a chunk exactly when its first candidate has truthy text, and stops exactly when it has a truthy finish reason |
| GoogleProvider.ChatStream | src/providers/google-provider.service.ts:108-159 | the nested loops over chunks and lines produce exactly the specified stream |
| GoogleProvider.EmittedTexts | src/providers/google-provider.service.ts:119-135 | the texts yielded over documents without a finish reason are the candidate texts, in order |
| GoogleProvider.StreamYieldsTexts | src/providers/google-provider.service.ts:108-159 | without a finish reason, the stream yields every candidate text in order and ends with an error exactly when the upstream failed |
| GoogleProvider.FinishReasonEndsStream | src/providers/google-provider.service.ts:137-139 | the first document with a finish reason ends the stream after its own text; later documents and a later failure are ignored |
| GoogleProvider.ChunksWellFormed | src/providers/google-provider.service.ts:120-134 | every yielded chunk names the requested model and carries non-empty text |
| GoogleProvider.TotalIsCopiedNotSummed | src/providers/google-provider.service.ts:52-54 | the total is copied from `totalTokenCount`, so a reply without it reports 0 whatever the other counts |
| GoogleProvider.StreamUrlWithoutEndpoint | src/providers/google-provider.service.ts:94 | a base URL without `generateContent` is also the streaming URL |
| GoogleProvider.StreamUrlSwapsEndpoint | src/providers/google-provider.service.ts:94-95 | a base URL ending in its only `generateContent` streams from `streamGenerateContent` |
| ProviderRouter.DefaultBaseUrl | src/providers/provider-router.service.ts:11-17 | a tag has a default URL exactly when it is a provider type; 'other' has the empty one |
| ProviderRouter.BaseUrlOr | src/providers/provider-router.service.ts:47 | a non-empty configured URL is kept; the empty one falls back to the provider's default |
| ProviderRouter.ResolveProviderCredentials | src/providers/provider-router.service.ts:32-82 | with provider keys: the resolved provider's entry when configured, else the only entry, else the cannot-determine error; without keys: the legacy provider and key when both are set, else the not-configured error |
| ProviderRouter.BuildPayload | src/providers/provider-router.service.ts:136-145 | model, messages and `max_tokens` are copied, temperature and top_p default to 0.7 and 1 only when absent, and `stream` is the flag |
| ProviderRouter.Dispatch | src/providers/provider-router.service.ts:89-103 | each provider tag selects its adapter, 'other' the OpenAI one, and any other tag is the unsupported-provider error |
| ProviderRouter.Forward | src/providers/provider-router.service.ts:84-134 | a credentials error is passed through; resolved credentials whose tag the switch knows are always routed, to the dispatched adapter with the resolved key and URL and the built payload; any other tag gives "Unsupported provider: " and the tag |
| ProviderRouter.DispatchedHasBaseUrl | src/providers/provider-router.service.ts:40-77 | every routed call has a base URL, configured or default |
| ProviderRouter.StreamingRoutesAlike | src/providers/provider-router.service.ts:84-134 | the unary and the streaming call route alike, fail alike, and differ only in the payload's `stream` flag |
| ProviderRouter.KnownModelUsesItsProvider | src/providers/provider-router.service.ts:42-48 | a model resolving to a configured provider uses that entry whatever else is configured |
| ProviderRouter.LegacyOtherGoesToOpenAI | src/providers/provider-router.service.ts:71-100 | a legacy 'other' project without a base URL is sent to the OpenAI adapter with the empty URL |
| ProxyHeaders.ValidateProxyHeaders | src/proxy/dto/proxy-headers.dto.ts:35-74 | a result is valid exactly when it has no error; a missing key and a key longer than 64 UTF-16 code units are reported first; a valid result has a well-formed key, a present identity, and an identity, tier and session within their limits in code units |
| ProxyHeaders.ValidateAgreesWithDto | src/proxy/dto/proxy-headers.dto.ts:7-74 | headers that `validateProxyHeaders` accepts satisfy the DTO's declared constraints, and the converse holds when no header has a character above U+FFFF |
| ProxyHeaders.EmojiIdentityTooLong | src/proxy/dto/proxy-headers.dto.ts:16-19 | an identity of 300 emoji meets the DTO's 512-character bound but is rejected as too long, since its `length` is 600 code units |
| ProxyHeaders.AcceptedKeyLength | src/proxy/dto/proxy-headers.dto.ts:45-50 | an accepted project key is exactly 35 characters |
| ProxyHeaders.EmptyIdentityIsMissing | src/proxy/dto/proxy-headers.dto.ts:53-61 | the "cannot be empty" error never occurs: an empty identity is reported as missing |
| ProxyHeaders.ProjectKeyCheckedFirst | src/proxy/dto/proxy-headers.dto.ts:41-50 | a project-key failure is reported whatever the other headers are |
| RateLimit.Check | src/common/proxy-rate-limit.middleware.ts:113-148 | `checkLimit` only ever adds or updates the entry under its own key; every other entry is kept |
| RateLimit.Unexpired | src/common/proxy-rate-limit.middleware.ts:170-180 | the entries kept by a sweep are exactly those whose window is still open, unchanged |
| RateLimit.RateLimitStore.CheckLimit | src/common/proxy-rate-limit.middleware.ts:113-148 | the report and the new store are those of `Check` on the old store |
| RateLimit.RateLimitStore.Sweep | src/common/proxy-rate-limit.middleware.ts:170-174 | the deleting loop leaves exactly the unexpired entries |
| RateLimit.CeilDiv | src/common/proxy-rate-limit.middleware.ts:63 | `Math.ceil(a / b)` is the least multiple count of `b` that reaches `a` |
| RateLimit.Admit | src/common/proxy-rate-limit.middleware.ts:43-108 | the IP store is checked on every call; on an IP denial, or without a project key, the project store is untouched; every rejection is a 429 |
| RateLimit.ClientIp | src/common/proxy-rate-limit.middleware.ts:153-162 | a non-empty header string, or the first string of a header list, gives its text before the first comma, trimmed; an absent or empty header falls back to the socket address, then 'unknown'; an empty header list throws |
| RateLimit.ProxyRateLimitMiddleware.constructor | src/common/proxy-rate-limit.middleware.ts:32-41 | both stores start empty and distinct |
| RateLimit.ProxyRateLimitMiddleware.Use | src/common/proxy-rate-limit.middleware.ts:43-108 | the answer and both new stores are those of `Admit` on the old stores, and every stored count stays within its limit |
| RateLimit.ProxyRateLimitMiddleware.Cleanup | src/common/proxy-rate-limit.middleware.ts:167-181 | each store loses exactly its expired entries, and the counts stay within their limits |
| RateLimit.CheckPreservesBound | src/common/proxy-rate-limit.middleware.ts:123-147 | with a limit of at least 1, every stored count stays between 1 and the limit |
| RateLimit.NewWindow | src/common/proxy-rate-limit.middleware.ts:123-130 | a missing or expired entry restarts the window at now with one call, allowed with limit − 1 remaining |
| RateLimit.OpenWindowCounts | src/common/proxy-rate-limit.middleware.ts:141-147 | an open window with room counts the call and reports the rest of the limit |
| RateLimit.FullWindowDenies | src/common/proxy-rate-limit.middleware.ts:133-139 | a full window denies with 0 remaining and leaves the store as it was |
| RateLimit.AtMostLimitPerWindow | src/common/proxy-rate-limit.middleware.ts:113-148 | within one window no more than the limit's remaining calls are allowed for a key, whatever the call times |
| RateLimit.IpDenialComesFirst | src/common/proxy-rate-limit.middleware.ts:59-73 | a full IP window answers 429 with code 'ip_rate_limit' before the project store is touched |
| RateLimit.RetryAfterRoundsUp | src/common/proxy-rate-limit.middleware.ts:63 | Retry-After is at least 1 and the whole seconds, rounded up, until the reset |
| RateLimit.NoProjectKeyPasses | src/common/proxy-rate-limit.middleware.ts:76-107 | without a project key an allowed call passes with no headers and only the IP store changes |
| RequestDtos.FirstInvalidMessage | src/proxy/dto/chat-completions.dto.ts:19-27 | no index exactly when every message is within its role and content bounds; otherwise the first message that is not |
| RequestDtos.ChatViolations | src/proxy/dto/chat-completions.dto.ts:33-95 | the chat body is reported clean exactly when it meets every declared bound |
| RequestDtos.ImageViolations | src/proxy/dto/chat-completions.dto.ts:100-136 | the image body is reported clean exactly when it meets every declared bound and allowed value |
| RequestDtos.EmbeddingsViolations | src/proxy/dto/chat-completions.dto.ts:141-164 | the embeddings body is reported clean exactly when it meets every declared bound |
| RequestDtos.AudioViolations | src/proxy/dto/chat-completions.dto.ts:169-194 | the transcription body is reported clean exactly when it meets every declared bound and allowed value |
| RequestDtos.ValidChatContentBound | src/proxy/dto/chat-completions.dto.ts:25-39 | a valid chat body carries at most 200 × 500000 characters of message content |
| RequestDtos.EmbeddingInputUnconstrained | src/proxy/dto/chat-completions.dto.ts:146-147 | the embeddings `input` is never reported, whatever it holds |
| IdentityLimits.Coalesced | src/identity-limits/identity-limits.service.ts:72-76 | `a ?? b` is `a` when it is neither null nor undefined, else `b` |
| IdentityLimits.Upserted | src/identity-limits/identity-limits.service.ts:67-92 | over an existing record every field becomes `dto ?? old`; a new record takes the dto's fields as given, `enabled` defaulting to true; the key is the project and the dto's identity |
| IdentityLimits.Assigned | src/identity-limits/identity-limits.service.ts:111 | `Object.assign` copies every property the dto carries, null included, and keeps the others and the key |
| IdentityLimits.UpsertTable | src/identity-limits/identity-limits.service.ts:63-93 | an upsert writes the one key and leaves every other record as it was |
| IdentityLimits.BulkUpserted | src/identity-limits/identity-limits.service.ts:134-146 | one result per item, in order, each under the project and the item's identity |
| IdentityLimits.Paging | src/identity-limits/identity-limits.service.ts:53-54 | `take` is the limit unless absent or 0, then 100; `skip` is the offset or 0 |
| IdentityLimits.ProjectKeys | src/identity-limits/identity-limits.service.ts:50-51 | the project's keys are exactly the table's keys under that project |
| IdentityLimits.Total | src/identity-limits/identity-limits.service.ts:50-57 | the project's total never exceeds the number of records |
| IdentityLimits.IdentityLimitsService.GetForIdentity | src/identity-limits/identity-limits.service.ts:34-41 | the record under the key when there is one, and null exactly when there is none |
| IdentityLimits.IdentityLimitsService.IsEnabled | src/identity-limits/identity-limits.service.ts:152-155 | an identity is enabled exactly unless its record has `enabled` false; a record's given `enabled` is the answer, and a record without one or no record means enabled |
| IdentityLimits.IdentityLimitsService.Upsert | src/identity-limits/identity-limits.service.ts:63-93 | the table becomes `UpsertTable` of the old one and the stored record is returned |
| IdentityLimits.IdentityLimitsService.Update | src/identity-limits/identity-limits.service.ts:98-113 | a missing record is NotFound and changes nothing; otherwise the dto is assigned over the record, which is stored and returned |
| IdentityLimits.IdentityLimitsService.Delete | src/identity-limits/identity-limits.service.ts:118-129 | the key is removed, and the result is NotFound exactly when no record was there |
| IdentityLimits.IdentityLimitsService.BulkUpsert | src/identity-limits/identity-limits.service.ts:134-146 | the loop's results and table are `BulkUpserted` of the old table |
| IdentityLimits.UpsertIdempotent | src/identity-limits/identity-limits.service.ts:63-93 | upserting the same body twice stores what upserting it once stores |
| IdentityLimits.UpsertCannotClearLimits | src/identity-limits/identity-limits.service.ts:72-76 | an upsert never clears a limit or the enabled flag that is already set |
| IdentityLimits.UpdateCanClearLimit | src/identity-limits/identity-limits.service.ts:111 | an update with an explicit null does clear the request limit |
| IdentityLimits.NewRecordEnabledByDefault | src/identity-limits/identity-limits.service.ts:89 | a new record is enabled unless the body sets `enabled` |
| IdentityLimits.UpsertTotal | src/identity-limits/identity-limits.service.ts:50-93 | a new identity adds one to the project's total; an existing one leaves it unchanged |
| IdentityLimits.CountAfterStore | src/identity-limits/identity-limits.service.ts:50-57 | storing under a project key adds one to the project's total unless the key was there |
| IdentityLimits.BulkOfOne | src/identity-limits/identity-limits.service.ts:140-143 | a bulk upsert of one item is a single upsert |
| IdentityLimits.BulkLeavesOthers | src/identity-limits/identity-limits.service.ts:134-146 | records the items do not name are kept unchanged |
| IdentityLimits.BulkStoresEveryItem | src/identity-limits/identity-limits.service.ts:134-146 | after a bulk upsert every named identity has a record |
| Usage.LimitsForTier | src/usage/usage.service.ts:126-140 | with a tier name and a `tiers` object, the tier's own entry is used wholesale; a name inherited from `Object.prototype` reads a record with no limits; otherwise the daily limits with no custom response |
| Usage.OwnLimitsForTier | src/usage/usage.service.ts:126-140 | the lookup as intended: only an own tier entry replaces the daily limits |
| Usage.InheritedTierChecksNothing | src/usage/usage.service.ts:131-132 | a tier named after an `Object.prototype` member, on a project with tiers but no such own tier, leaves every request allowed whatever the counters and daily limits |
| Usage.ConstructorTierBypass | src/usage/usage.service.ts:131-132 | with `tiers` set to an empty object and one daily request used of one, `x-tier: constructor` is allowed where no tier is blocked, and the intended lookup gives the daily limits |
| Usage.LookupsAgreeOnOwnNames | src/usage/usage.service.ts:126-140 | for every tier name that is not inherited the lookup as written equals the intended one |
| Usage.LimitResponse | src/usage/usage.service.ts:216-226 | the project's response when it is set and parses, else the default response |
| Usage.ReplaceTemplateVars | src/usage/usage.service.ts:265-277 | the loop over the variables computes the in-order substitution of every defined variable |
| Usage.Interpolate | src/usage/usage.service.ts:242-262 | falsy values, numbers and booleans come back as they are; a string is substituted; an object or array becomes a same-length object copy whose string fields are substituted and whose object fields are interpolated |
| Usage.InterpolateFields | src/usage/usage.service.ts:251-258 | the key loop maps every field of the copy, in order, keeping its key |
| Usage.InterpolateItems | src/usage/usage.service.ts:251-258 | the same loop over an array's copy keys the fields by index |
| Usage.InterpolateField | src/usage/usage.service.ts:253-257 | a string field is substituted; numbers, booleans and null are kept |
| Usage.Check | src/usage/usage.service.ts:67-122 | an allowed request moves the counter to the old values plus the requested requests and tokens |
| Usage.CurrentOrZero | src/usage/usage.service.ts:48-64 | a missing counter is read as zero requests and zero tokens |
| Usage.UsageService.CheckAndUpdateUsage | src/usage/usage.service.ts:42-123 | on allow the counter is stored with the new totals and returned; on block the interpolated response is returned and nothing is stored |
| Usage.UsageService.FinalizeUsage | src/usage/usage.service.ts:142-157 | the tokens are added to an existing counter, and nothing changes when there is none |
| Usage.UsageService.GetUsage | src/usage/usage.service.ts:159-171 | the stored counter exactly when one exists under the key |
| Usage.UsageService.GetSummaryForProject | src/usage/usage.service.ts:173-191 | the sums of requests and of tokens over the project's counters for the period |
| Usage.TotalRemove | src/usage/usage.service.ts:184-188 | a sum over the counters can take any one counter out first, so the fold's order does not matter |
| Usage.BlockedIff | src/usage/usage.service.ts:74-105 | a request is blocked exactly when a checked limit is set, non-zero and exceeded: requests under 'requests' or 'both', tokens under 'tokens' or 'both' |
| Usage.ReachingLimitIsAllowed | src/usage/usage.service.ts:78-93 | reaching a limit exactly is allowed, and a limit of 0 never blocks |
| Usage.UnknownLimitTypeAllows | src/usage/usage.service.ts:74-75 | a limit type other than 'requests', 'tokens' or 'both' checks nothing |
| Usage.RequestLimitWins | src/usage/usage.service.ts:78-90 | when the request limit is exceeded it is reported, with limitType 'requests', the request limit and the request count, whatever the tokens |
| Usage.BlockedResponse | src/usage/usage.service.ts:78-105 | a blocked request gets the tier's response, else the project's, interpolated with some variables |
| Usage.CustomResponsePreferred | src/usage/usage.service.ts:78-105 | a tier's truthy custom response is the one interpolated when its request is blocked |
| Usage.UnknownTierUsesProjectLimits | src/usage/usage.service.ts:131-139 | without a `tiers` object, or for a name that is neither an own tier nor inherited, the daily limits apply with no custom response |
| Usage.NoBraceUnchanged | src/usage/usage.service.ts:265-277 | a text without '{' comes back unchanged |
| Usage.UndefinedVariablesSkipped | src/usage/usage.service.ts:271 | undefined or null variables leave the text as it is |
| Usage.OtherPlaceholderCopied | src/usage/usage.service.ts:272-273 | the placeholder of another key is left literal by a substitution |
| Usage.TemplateFilled | src/usage/usage.service.ts:232-277 | "… {{limit}} … {{usage}} … {{tier}}" is filled in place with the limit, the usage and the tier, and nothing else changes |
| FlowExecutor.NodesById | src/flow/flow-executor.service.ts:67-70 | the map's ids are exactly the ids of the flow's nodes |
| FlowExecutor.EdgesFrom | src/flow/flow-executor.service.ts:73-78 | the edges of one source are edges of the flow leaving that source, no more of them than the flow has |
| FlowExecutor.EdgesBySourceGroups | src/flow/flow-executor.service.ts:73-78 | the built map holds, for each source, exactly its edges in list order, and has an entry only for a source with edges |
| FlowExecutor.NodesByIdKeepsLast | src/flow/flow-executor.service.ts:68-70 | a later node with the same id replaces an earlier one: the map keeps the last |
| FlowExecutor.BuildMaps | src/flow/flow-executor.service.ts:66-78 | the two loops build exactly the node map and the edge map |
| FlowExecutor.HandleIndex | src/flow/flow-executor.service.ts:179-184 | the scan stops at the first edge with the handle, or past the end when none has it |
| FlowExecutor.Target | src/flow/flow-executor.service.ts:181 | an edge's target, when found, is a node of the map |
| FlowExecutor.GetNextNode | src/flow/flow-executor.service.ts:280-303 | no edges give no node; any node returned is a node of the map; without a handle it is the first edge's target |
| FlowExecutor.EvaluateCheckTier | src/flow/flow-executor.service.ts:166-194 | the edge named by the tier ('free' when unset) is followed, else the first edge; without edges the result is terminal with no action |
| FlowExecutor.LimitBound | src/flow/flow-executor.service.ts:221 | a falsy limit is no bound (`Infinity`), and a bound is never 0 |
| FlowExecutor.UsageKey | src/flow/flow-executor.service.ts:209-214 | the counter read is under the context's project, and under the identity unless the node is scoped to the session |
| FlowExecutor.EvaluateCheckLimit | src/flow/flow-executor.service.ts:199-241 | a missing counter throws; otherwise the 'exceeded' or 'pass' edge is followed, with no fallback to another edge, and terminal with no action when it is missing |
| FlowExecutor.EvaluateLimitResponse | src/flow/flow-executor.service.ts:246-275 | a 429 block whose body has the error and the message (default 'Rate limit exceeded'), and the interpolated upgrade URL exactly when enabled and given |
| FlowExecutor.EvaluateNode | src/flow/flow-executor.service.ts:125-161 | a start node goes to its first edge's target; unknown types allow; only a `checkLimit` node can throw; any next node is a node of the map |
| FlowExecutor.StartIndex | src/flow/flow-executor.service.ts:81 | the first start node, or none |
| FlowExecutor.Walk | src/flow/flow-executor.service.ts:92-119 | the path grows by at least one entry per step taken and by at most the fuel, keeps its prefix, and a walk without a node or fuel allows |
| FlowExecutor.Execution | src/flow/flow-executor.service.ts:59-120 | without a start node the result allows with path ['no-start-node']; otherwise the path has between 1 and 50 entries |
| FlowExecutor.Execute | src/flow/flow-executor.service.ts:59-120 | `execute` returns exactly the specified execution |
| FlowExecutor.WalkFrom | src/flow/flow-executor.service.ts:88-119 | the bounded loop computes the walk from the start node with 50 visits of fuel |
| FlowExecutor.WalkStep | src/flow/flow-executor.service.ts:92-115 | one iteration records the node's label and then returns the node's error, its terminal result, or continues from the next node with one visit less |
| FlowExecutor.HasValidFlow | src/flow/flow-executor.service.ts:319-327 | true exactly for a truthy flow whose `nodes` is an array of more than one node with a start node before any null node; throws exactly when a null node comes before every start node; a falsy flow is false |
| FlowExecutor.SomeStart | src/flow/flow-executor.service.ts:325 | true exactly when a start node comes before any null node; a null node before any start node throws |
| FlowExecutor.NodesByIdValues | src/flow/flow-executor.service.ts:67-70 | every node of the map is a node of the flow |
| FlowExecutor.WalkLabels | src/flow/flow-executor.service.ts:92-115 | every entry a walk records is the label of a node it could reach |
| FlowExecutor.ExecutionPathLabelsNodes | src/flow/flow-executor.service.ts:59-120 | with a start node, every entry of the execution path is `type:id` of one of the flow's nodes |
| FlowExecutor.SelfLoopWalk | src/flow/flow-executor.service.ts:92-115 | a start node whose first edge leads back to itself is visited once per unit of fuel and the walk allows |
| FlowExecutor.SelfLoopAllowsAfterBound | src/flow/flow-executor.service.ts:88-119 | a looping flow stops after 50 visits and allows |
| FlowExecutor.ZeroOrUnsetLimitNeverExceeded | src/flow/flow-executor.service.ts:221 | a limit of 0, or none, is never exceeded |
| FlowExecutor.NumericLimitExceeded | src/flow/flow-executor.service.ts:217-221 | a numeric limit is exceeded once the usage reaches it: tokens under 'tokens', requests otherwise |
| FlowExecutor.TierEdgeFollowed | src/flow/flow-executor.service.ts:179-184 | the request's tier edge is followed even when an earlier edge exists |
| FlowExecutor.UpgradeUrlWithoutPlaceholders | src/flow/flow-executor.service.ts:308-314 | a URL without '{' is returned unchanged |
| FlowExecutor.UpgradeUrlFillsIdentity | src/flow/flow-executor.service.ts:308-314 | `{{identity}}` between brace-free text is replaced by a brace-free identity and the rest is kept |
| FlowExecutor.PlaceholderCanReappear | src/flow/flow-executor.service.ts:308-314 | one scan per placeholder: text split around `{{identity}}` joins into a new `{{identity}}` when the identity is empty |
| StreamFraming.NonBlank | src/providers/openai-provider.service.ts:63 | the filter keeps only parts that are not blank, in order |
| StreamFraming.ChunkLines | src/providers/openai-provider.service.ts:60-63 | every line of a chunk is non-blank and holds no newline |
| StreamFraming.ParseLines | src/providers/openai-provider.service.ts:65-78 | the inner loop yields what each line yields and stops at the first line that ends the stream, as the framing function does |
| StreamFraming.ParseNext | src/providers/openai-provider.service.ts:65-78 | one line either ends the stream with its item or moves the loop on by one line |
| StreamFraming.ParseStream | src/providers/openai-provider.service.ts:59-79 | the nested loops over chunks and lines frame all the chunks' lines in order and return as soon as a line ends the stream |
| StreamFraming.ParseChunk | src/providers/openai-provider.service.ts:59-79 | one chunk either ends the stream or moves the outer loop on by one chunk |
| StreamFraming.Finish | src/providers/openai-provider.service.ts:80-95 | the stream yields its items, and raises the upstream failure as the adapter's error exactly when no line ended the stream first |
| StreamFraming.RunStream | src/providers/openai-provider.service.ts:59-95 | a streaming adapter's generator, for any line classifier and error mapping, yields the framed items of all chunks up to the first stop, then the adapter's error exactly when the upstream failed and no line stopped the stream |
| StreamFraming.FramesNoStop | src/providers/openai-provider.service.ts:65-78 | when no line stops, every line's item is yielded and the stream is not ended |
| StreamFraming.AllLinesAppend | src/providers/openai-provider.service.ts:59-63 | the lines of consecutive chunks are the lines of each chunk in order |
| StreamFraming.SingleLineChunk | src/providers/openai-provider.service.ts:60-63 | a chunk that is one line without blanks at its ends frames to that line alone |
| StreamFraming.RunWithoutStop | src/providers/openai-provider.service.ts:59-79 | when no line ends the stream, every item of every line is yielded in line order across chunks |
| StreamFraming.FramesStopIgnoresRest | src/providers/openai-provider.service.ts:68-70 | once a line ends the stream, no later line is looked at |
| StreamFraming.FramesAppend | src/providers/openai-provider.service.ts:65-78 | lines that do not end the stream contribute their items and parsing goes on after them |
| StreamFraming.StreamStopIgnoresLaterChunks | src/providers/openai-provider.service.ts:59-70 | chunks after the one that ends the stream change nothing |
| StreamFraming.FramesStopAt | src/providers/anthropic-provider.service.ts:104-136 | a stream that ends at line `i` yields the items of lines up to and including `i` |
| StreamFraming.EmittedAppend | src/providers/openai-provider.service.ts:65-78 | the items of consecutive lines are the items of each in order |
| StreamFraming.FramesItemsEmitted | src/providers/openai-provider.service.ts:65-78 | every yielded item is the item of one of the lines |
| StreamFraming.Events | src/providers/anthropic-provider.service.ts:105-108 | the parsed events are no more than the lines |
| StreamFraming.FramesOfEvents | src/providers/anthropic-provider.service.ts:105-134 | lines that are not `data:` lines or do not parse change nothing: framing the lines is framing their events |
| Json.Or | src/providers/anthropic-provider.service.ts:41 | JavaScript `or` gives `a` when it is truthy, else `b` |
| Json.FieldIndex | src/providers/anthropic-provider.service.ts:35 | a property read finds the first field with the key, or none |
| Json.GetUnique | src/providers/anthropic-provider.service.ts:35 | in an object whose keys are unique, as `JSON.parse` builds it, a property read finds the one field of that key |
| Json.Dot | src/providers/anthropic-provider.service.ts:41 | reading a property throws exactly when the value is null or undefined |
| Json.Index | src/providers/anthropic-provider.service.ts:41 | indexing throws exactly when the value is null or undefined |
| Json.OptDot | src/providers/anthropic-provider.service.ts:47 | optional chaining on null or undefined is undefined |
| Json.OptAt | src/providers/google-provider.service.ts:35 | optional indexing on null or undefined is undefined |
| Json.Plus | src/providers/anthropic-provider.service.ts:49 | `+` adds two numbers and concatenates when either side is a string |
| Anonymization.Merge | src/anonymization/anonymization.service.ts:35-45 | as `{ ...DEFAULT_CONFIG, ...config }` at line 98 does, each of `enabled`, the seven detect flags, `customPatterns` and `maskingStyle` is the caller's value when given and the default otherwise |
| Anonymization.Find | src/anonymization/anonymization.service.ts:374 | a key is found exactly when the table holds it, and what is found is the entry of its first occurrence |
| Anonymization.PlaceholderFor | src/anonymization/anonymization.service.ts:374 | a type has a placeholder exactly when it is a key of the table, and it is the table's entry for that type |
| Anonymization.PlaceholderReplacement | src/anonymization/anonymization.service.ts:373-374 | a non-empty custom replacement wins, else the type's own placeholder, else '[PII_REDACTED]'; never empty |
| Anonymization.Records | src/anonymization/anonymization.service.ts:377-383 | one replacement record per match |
| Anonymization.MaskPattern | src/anonymization/anonymization.service.ts:339-395 | the returned text is the input with every match replaced by its replacement, and the records are one per match in order |
| Anonymization.Splice | src/anonymization/anonymization.service.ts:346-394 | the loop splicing at the position shifted by `offset` builds exactly the masked text and the record list |
| Anonymization.SplicedAll | src/anonymization/anonymization.service.ts:362-394 | after the last match the loop state is the masked text and all the records |
| Anonymization.SpliceInRange | src/anonymization/anonymization.service.ts:386-391 | the shifted match position and its end lie within the current output, so the splice is well-defined |
| Anonymization.SpliceNext | src/anonymization/anonymization.service.ts:362-392 | one iteration (splice, record, offset update) keeps the loop state |
| Anonymization.MaskStep | src/anonymization/anonymization.service.ts:386-391 | splicing at `index + offset` turns the rebuilt prefix for i matches into the one for i + 1, and the new offset is its growth |
| Anonymization.Wrap32 | src/anonymization/anonymization.service.ts:404-405 | `hash & hash` result: a signed 32-bit value congruent to its input modulo 2^32 |
| Anonymization.Base36 | src/anonymization/anonymization.service.ts:407 | `toString(36)` gives the base-36 digits whose value is `n`, with no leading zero |
| Anonymization.HashToken | src/anonymization/anonymization.service.ts:400-408 | the token has 1 to 6 characters, each a digit or an upper-case letter |
| Anonymization.SimpleHash | src/anonymization/anonymization.service.ts:400-408 | the loop over the UTF-16 code units (`charCodeAt`) computes exactly the specified token |
| Anonymization.ShiftSubtractIsTimes31 | src/anonymization/anonymization.service.ts:404 | `(hash << 5) - hash + char`, wrapped, equals `31·hash + char` wrapped to 32 bits |
| Anonymization.EnabledPasses | src/anonymization/anonymization.service.ts:108-161 | only the enabled built-in types get a pass, each with its own pattern and no custom replacement |
| Anonymization.BuiltinPasses | src/anonymization/anonymization.service.ts:108-161 | the built-in passes are built-in types with their fixed patterns |
| Anonymization.CustomPasses | src/anonymization/anonymization.service.ts:164-182 | custom patterns run in list order, and a pattern that does not compile is skipped |
| Anonymization.Passes | src/anonymization/anonymization.service.ts:107-182 | every pass is a built-in one or a compiling custom one; without custom patterns only the built-in passes run |
| Anonymization.RunPassesStep | src/anonymization/anonymization.service.ts:107-182 | each pass runs on the previous pass's output, and the records of the passes are concatenated in order |
| Anonymization.Anonymized | src/anonymization/anonymization.service.ts:94-189 | when disabled the text comes back unchanged with no replacements; `piiDetected` holds exactly when something was replaced |
| Anonymization.AnonymizeText | src/anonymization/anonymization.service.ts:94-189 | the method computes exactly the specified result |
| Anonymization.ApplyPasses | src/anonymization/anonymization.service.ts:107-182 | running the passes in turn gives the chained text and the concatenated records |
| Anonymization.AnonymizedMessage | src/anonymization/anonymization.service.ts:203-210 | the role is kept, and a message that is not from the user passes through unchanged |
| Anonymization.MessagesNext | src/anonymization/anonymization.service.ts:203-217 | one message of the map keeps the mapped prefix and the running count |
| Anonymization.AnonymizeMessage | src/anonymization/anonymization.service.ts:203-217 | the callback returns the specified message and its number of replacements |
| Anonymization.AnonymizeMessages | src/anonymization/anonymization.service.ts:194-224 | the messages are mapped one by one in order, the total is the sum of the per-message counts, and `piiDetected` holds exactly when the total is positive |
| Anonymization.DetectOne | src/anonymization/anonymization.service.ts:251-289 | a type is reported exactly when its pattern found at least one match |
| Anonymization.DetectPII | src/anonymization/anonymization.service.ts:239-296 | `hasPII` holds exactly when some type was found, and exactly when the count is positive |
| Anonymization.NoMatchUnchanged | src/anonymization/anonymization.service.ts:357-395 | with no match a pass leaves the text unchanged and records nothing |
| Anonymization.ReplacementFor | src/anonymization/anonymization.service.ts:364-375 | 'redact' gives one '*' per UTF-16 code unit of the match, 'hash' gives `[TYPE_TOKEN]`, any other style the placeholder |
| Anonymization.RedactAstral | src/anonymization/anonymization.service.ts:366 | an emoji, two code units, is redacted as '**' |
| Anonymization.PrefixLength | src/anonymization/anonymization.service.ts:386-391 | the output so far is as long as the input consumed plus the growth of the replacements |
| Anonymization.MaskedLength | src/anonymization/anonymization.service.ts:339-395 | the masked text is longer than the input by exactly the total growth |
| Anonymization.PrefixExtends | src/anonymization/anonymization.service.ts:362-392 | the rebuilt output only grows as the loop goes on |
| Anonymization.ReplacementInOutput | src/anonymization/anonymization.service.ts:386-391 | the replacement of match k sits in the output at its input position shifted by the growth of the earlier matches |
| Anonymization.HeadBefore | src/anonymization/anonymization.service.ts:386-391 | the output before match k's replacement is as long as the match's shifted position |
| Anonymization.PrefixUnits | src/anonymization/anonymization.service.ts:386-391 | with replacements as long as what they replace in code units, the output so far has the `length` of the input consumed |
| Anonymization.RedactPreservesLength | src/anonymization/anonymization.service.ts:366 | 'redact' keeps the text's `length` in UTF-16 code units |
| Anonymization.RecordsInInputCoordinates | src/anonymization/anonymization.service.ts:377-383 | each record holds the matched text, its start and end in the pass's input and its replacement |
| Anonymization.NoMatchesNoChange | src/anonymization/anonymization.service.ts:107-182 | when no pass finds a match the text is unchanged and nothing is recorded |
| Anonymization.PassesChain | src/anonymization/anonymization.service.ts:108-128 | the second pass sees the output of the first, and the records are the first's followed by the second's |
| Anonymization.DetectIgnoresEnabled | src/anonymization/anonymization.service.ts:239-296 | detection does not depend on the `enabled` flag |
| Anonymization.HashTokenIsStable | src/anonymization/anonymization.service.ts:369 | under 'hash' the same matched text always gets the same replacement |
| Anonymization.AvailableCategories | src/anonymization/anonymization.service.ts:301-334 | one category per built-in pattern, in the order the passes run, each on by default exactly when the default configuration enables it |
| TransparentProxy.MissingHeader | src/proxy/transparent-proxy.controller.ts:65-78 | the headers are checked in the order project key, Authorization, identity; the request goes on exactly when all three are present, and the first missing one names the error |
| TransparentProxy.DaysFromCivil | src/proxy/transparent-proxy.controller.ts:950 | the day number of a calendar date, day 0 being 1970-01-01 |
| TransparentProxy.DateUtc | src/proxy/transparent-proxy.controller.ts:950 | `Date.UTC` gives a UTC midnight, the day number of the date in milliseconds for years outside 0 to 99 |
| TransparentProxy.Weekday | src/proxy/transparent-proxy.controller.ts:946 | `getUTCDay` is a day of the week from 0 to 6 |
| TransparentProxy.PeriodStart | src/proxy/transparent-proxy.controller.ts:941-958 | the period starts at a UTC midnight: today for daily and any unknown period, at most six days back for weekly, the first of the month for monthly |
| TransparentProxy.OrNumber | src/proxy/transparent-proxy.controller.ts:179 | JavaScript `or` with a fallback keeps a present non-zero number and otherwise gives the fallback |
| TransparentProxy.ChatAmounts | src/proxy/transparent-proxy.controller.ts:178-191 | a chat completion asks for one request and `max_tokens` tokens (0 when absent or 0) |
| TransparentProxy.ImageAmounts | src/proxy/transparent-proxy.controller.ts:375 | an image generation asks for `n` requests (1 when absent or 0) and no tokens |
| TransparentProxy.EstimateTokens | src/proxy/transparent-proxy.controller.ts:984-988 | the estimate is the UTF-16 length divided by 4, rounded up |
| TransparentProxy.ProviderFailure | src/proxy/transparent-proxy.controller.ts:328-340 | a provider error with data is passed through with its status or 500; any other failure is a 500 |
| TransparentProxy.Reported | src/proxy/transparent-proxy.controller.ts:281-283 | a usage count defaulted to 0 is reported only when it is a non-zero number |
| TransparentProxy.UnaryTokens | src/proxy/transparent-proxy.controller.ts:280-283 | reading `usage` throws exactly when the reply is `null`; otherwise each count is the reported non-zero number, else 0 |
| TransparentProxy.DataLines | src/proxy/transparent-proxy.controller.ts:904 | one `data:` event per chunk, in order |
| TransparentProxy.Readable | src/proxy/transparent-proxy.controller.ts:892-905 | the relay reads the chunks up to the first `null` one, whose usage cannot be read |
| TransparentProxy.UsageUpdate | src/proxy/transparent-proxy.controller.ts:898-901 | the update of a count keeps the latest non-zero count a chunk's usage reports |
| TransparentProxy.RelayNext | src/proxy/transparent-proxy.controller.ts:892-905 | one more readable chunk writes its event and keeps the running counts |
| TransparentProxy.RelayStream | src/proxy/transparent-proxy.controller.ts:871-939 | the loop over the chunks and what follows it write exactly the specified events and finalize exactly as specified |
| TransparentProxy.SecurityScreen | src/proxy/transparent-proxy.controller.ts:122-173 | the event is saved exactly when security is on, the request has messages and the prompt is flagged; only 'block' mode stops the request, answering with the verdict's reason |
| TransparentProxy.TransparentProxyController.constructor | src/proxy/transparent-proxy.controller.ts:38-50 | a new controller uses the given usage store and has made no calls |
| TransparentProxy.TransparentProxyController.Admit | src/proxy/transparent-proxy.controller.ts:176-239 | the identity check, then the session check, update the counters and the call log as specified |
| TransparentProxy.TransparentProxyController.ChatCompletions | src/proxy/transparent-proxy.controller.ts:56-342 | the outcome, the calls and the new counters are those of the chat specification |
| TransparentProxy.TransparentProxyController.ChatWithHeaders | src/proxy/transparent-proxy.controller.ts:85-342 | a chat request whose headers are present goes through the screen, the checks and the delivery as specified |
| TransparentProxy.TransparentProxyController.ChatLimited | src/proxy/transparent-proxy.controller.ts:176-314 | an unblocked chat request is admitted and then delivered as specified |
| TransparentProxy.TransparentProxyController.Screen | src/proxy/transparent-proxy.controller.ts:122-173 | the security screen answers and logs as specified |
| TransparentProxy.TransparentProxyController.Deliver | src/proxy/transparent-proxy.controller.ts:258-339 | an admitted chat request is forwarded, relayed or answered, and finalized, as specified; a `null` unary reply is answered 500 by the catch without finalizing |
| TransparentProxy.TransparentProxyController.ImagesGenerations | src/proxy/transparent-proxy.controller.ts:349-523 | the outcome, the calls and the new counters are those of the image specification |
| TransparentProxy.TransparentProxyController.DeliverImage | src/proxy/transparent-proxy.controller.ts:469-501 | an admitted image request is forwarded and its usage finalized as specified |
| TransparentProxy.LeapDays | src/proxy/transparent-proxy.controller.ts:950 | the leap-day count of the civil calendar grows by one exactly in a leap year |
| TransparentProxy.MonthsAreContiguous | src/proxy/transparent-proxy.controller.ts:950 | the day after the last of a month is the first of the next month, across years and leap years |
| TransparentProxy.WeeklyStart | src/proxy/transparent-proxy.controller.ts:951-953 | the weekly period starts at the Monday on or before today |
| TransparentProxy.MondayBefore | src/proxy/transparent-proxy.controller.ts:952-953 | going back `(getUTCDay() + 6) % 7` days lands on a Monday |
| TransparentProxy.SameWeekSamePeriod | src/proxy/transparent-proxy.controller.ts:951-953 | two days share a weekly period exactly when they lie in the same Monday-to-Sunday week |
| TransparentProxy.MonthlyCoversTheMonth | src/proxy/transparent-proxy.controller.ts:954-955 | the monthly period starts on the first of the month, covers today, and the next period starts the day after the month's last |
| TransparentProxy.DtoBoundsKeepAmountsInRange | src/proxy/dto/chat-completions.dto.ts:46-114 | were the bodies validated as declared, the chat tokens would stay in 0 to 128000 and the image requests in 1 to 10 |
| TransparentProxy.JoinLength | src/proxy/transparent-proxy.controller.ts:985 | joining with ' ' adds one code unit between neighbours |
| TransparentProxy.EstimateOfTexts | src/proxy/transparent-proxy.controller.ts:984-988 | the estimate of a list counts the code units of its strings and the separating spaces, and an empty list estimates 0 |
| TransparentProxy.EstimateCountsCodeUnits | src/proxy/transparent-proxy.controller.ts:984-988 | four emoji are eight code units and estimate 2 tokens |
| TransparentProxy.LatestReportWins | src/proxy/transparent-proxy.controller.ts:898-901 | the running count is the one the last chunk reporting a non-zero count gave |
| TransparentProxy.NoReportIsZero | src/proxy/transparent-proxy.controller.ts:888-901 | the running count stays 0 when no chunk reports a count |
| TransparentProxy.RelayWritesEvents | src/proxy/transparent-proxy.controller.ts:888-929 | one event per chunk read, `[DONE]` exactly when every chunk was read and the stream ended, and the usage finalized only then and only when the counts add up to more than 0 |
| TransparentProxy.HeadersCheckedFirst | src/proxy/transparent-proxy.controller.ts:65-78 | a missing header is answered before anything is checked, called or counted, in both handlers |
| TransparentProxy.SecurityBlockChargesNothing | src/proxy/transparent-proxy.controller.ts:162-173 | a blocked prompt is answered 403, logs its event, and charges nothing |
| TransparentProxy.IdentityBlockStopsTheRequest | src/proxy/transparent-proxy.controller.ts:193-213 | an identity over its limit has its block tracked and gets 429; nothing is forwarded, no session check runs and nothing is counted |
| TransparentProxy.SessionCheckedOnlyAfterIdentity | src/proxy/transparent-proxy.controller.ts:215-239 | the session limits are consulted exactly when the identity check allowed, session limits are on and a session is named |
| TransparentProxy.ChargedBeforeForwarding | src/proxy/transparent-proxy.controller.ts:181-278 | the provider is called only after both checks allowed, and the identity's counter already holds the request's amounts |
| TransparentProxy.UnaryFinalizesOnTotal | src/proxy/transparent-proxy.controller.ts:280-301 | a unary reply finalizes the usage exactly when it is not `null` and its `total_tokens` is a positive number |
| TransparentProxy.NullReplyIsServerError | src/proxy/transparent-proxy.controller.ts:280-339 | a `null` unary reply makes the `usage` read throw, and the catch answers 500 `proxy_error` with the TypeError's message and finalizes nothing |
| TransparentProxy.ImageFinalizesWithoutTokens | src/proxy/transparent-proxy.controller.ts:469-490 | an image reply always finalizes the usage with no tokens, a failed call never |
| TransparentProxy.ChatChargesItsAmounts | src/proxy/transparent-proxy.controller.ts:178-191 | an admitted chat request adds one request and `max_tokens` tokens (0 when absent or 0) to the identity's counter |
| TransparentProxy.NegativeImageCountLowersUsage | src/proxy/transparent-proxy.controller.ts:375-416 | a negative `n` that the limits let through lowers the identity's request count |
| Strings.IndexOf | src/providers/google-provider.service.ts:94 | the index found is the first occurrence of the pattern at or after the start, and none is found exactly when the pattern does not occur there |
| Strings.FirstIndexOf | src/providers/openai-provider.service.ts:62 | the first position of the character, or the length when it does not occur |
| Strings.Split | src/providers/openai-provider.service.ts:60-62 | splitting gives at least one part, no part holds the separator, joining the parts with it gives the input back, and the first part is the text before the first separator |
| Strings.TrimEmptyIffBlank | src/providers/openai-provider.service.ts:63 | `line.trim() !== ''` holds exactly for the lines with a character that is not white space |
| Strings.TrimStartBlank | src/providers/model-resolver.ts:87 | trimming the start leaves nothing exactly when the string is all white space |
| Strings.TrimEndEmpty | src/providers/model-resolver.ts:87 | trimming the end leaves nothing exactly when the string is all white space |
| Strings.TrimKeepsChars | src/providers/model-resolver.ts:87 | trimming only removes characters |
| Strings.TrimStartSuffix | src/providers/model-resolver.ts:87 | trimming the start drops a blank prefix and keeps the rest |
| Strings.Lower | src/providers/model-resolver.ts:87 | lower-casing keeps the length and lower-cases each character |
| Strings.Upper | src/anonymization/anonymization.service.ts:369 | upper-casing keeps the length and upper-cases each character |
| Strings.Repeat | src/anonymization/anonymization.service.ts:366 | `'*'.repeat(n)` has n characters, each '*' |
| Strings.NatToString | src/usage/usage.service.ts:273 | a non-negative number prints as the decimal digits whose value it is, with no leading zero |
| Strings.ReplaceAllAbsent | src/usage/usage.service.ts:272-273 | a global replace leaves a string without the pattern unchanged |
| Strings.ReplaceAllSkip | src/usage/usage.service.ts:272-273 | a prefix that holds no first character of the pattern is copied unchanged |
| Strings.ReplaceAllHead | src/usage/usage.service.ts:272-273 | an occurrence at the start is replaced and the scan resumes after it |
| Strings.ReplaceAllStep | src/usage/usage.service.ts:272-273 | a leading character that starts no occurrence is copied and the scan continues at the next one |
| Strings.Utf16Units | src/anonymization/anonymization.service.ts:402 | a character is one code unit below U+10000 and a high-then-low surrogate pair above |
| Strings.Utf16UnitsRoundTrip | src/anonymization/anonymization.service.ts:402 | decoding the code units of a character gives the character back |
| Strings.Utf16Append | src/proxy/transparent-proxy.controller.ts:987 | the code units of a concatenation are those of its parts |
| Strings.Utf16Split | src/proxy/transparent-proxy.controller.ts:987 | the `length` of a string is the sum of the `length`s of its two halves |
| Strings.Utf16LengthIsCount | src/proxy/transparent-proxy.controller.ts:987 | `length` equals the character count exactly when no character is above U+FFFF |
| Strings.Utf16LengthRepeat | src/anonymization/anonymization.service.ts:366 | a repeated ASCII character has one code unit per repetition |
| Strings.Utf16LengthRepeatAstral | src/proxy/dto/proxy-headers.dto.ts:56 | a repeated character above U+FFFF has two code units per repetition |

## Left out

- HTTP and framework plumbing (the Express response object, headers written, NestJS decorators, `httpService.post`): adapters are modelled as translators plus a parser over a given sequence of chunks, handlers as the outcome they send and the calls they make.
- The database and concurrency: repositories are maps updated sequentially, so the check-then-save race in `checkAndUpdateUsage` is not modelled.
- `checkSessionLimits`, `trackBlockedRequest`, `finalizeUsageWithCost`, the pricing, security, projects and forwarding services: their code is not part of this model; their answers are parameters and their calls are recorded in a call log.
- Floating point: `usagePercent`, dollar costs and `toFixed`. The temperature, top_p and penalty bounds of the request bodies are modelled with Dafny's exact `real`, not IEEE doubles.
- Numbers are integers: a usage count or limit that is a fraction or not a number is not modelled.
- FlowExecutor.LimitBound: a `limit` given as a string or an array is compared after JavaScript's number conversion ('10' as 10, `[]` as 0); the model treats every non-number, non-boolean limit as no bound.
- Clocks: `Date.now` and `new Date()` are the parameter `now`; the flow executor's local-time period start is the parameter `periodStart`.
- Regular expressions: the engine is an oracle assumed to return in-order, non-overlapping, non-empty matches within the text; the five built-in patterns and the `dateOfBirth` pattern themselves are not modelled, only which passes run.
- A custom pattern that matches the empty string: `exec` with the 'g' flag then returns the same empty match forever and the loop in anonymization.service.ts:357-392 never ends; the oracle's non-empty matches exclude this case.
- Match positions: the recorded `start` and `end` and the running offset of anonymization.service.ts:359-391 count UTF-16 code units; the model counts characters there, so they differ on text with characters above U+FFFF. The `length`s that `redact`, the hash, `estimateTokens` and `validateProxyHeaders` use are counted in code units.
- Anonymization.PlaceholderFor: `this.placeholders[type]` also finds the members inherited from `Object.prototype`; a custom pattern named, say, 'constructor' would read a function and splice its source text. The model's table holds only the own placeholders.
- Anonymization.PlaceholderReplacement: inherits the Anonymization.PlaceholderFor restriction above.
- ModelResolver.LookupKnown: `KNOWN_MODELS[name]` likewise finds 'constructor' and '__proto__' (the only inherited names that survive lower-casing and trimming) and returns a non-provider; the model returns none for them.
- IdentityLimits.Assigned: the update body is typed by the interface `UpdateIdentityLimitDto` (identity-limits.service.ts:15), so the global `ValidationPipe` of main.ts:24-30 neither validates nor whitelists it, and `Object.assign` also copies any other property the body carries, `projectId`, `identity` and `id` included, which can move or rename the saved row. The model's update body holds only the five declared fields, so `Assigned` always keeps the record's key and `IdentityLimitsService.Update` always stores under the key it was given.
- Anonymization.Merge: a key given as `null` in the caller's config overrides the default with `null` in JavaScript; the model's partial config has no `null` value.
- `JSON.parse` and `JSON.stringify` are oracles; the stream relay writes `data: ` followed by whatever `stringify` returns.
- `$` sequences in the replacement value of `String.prototype.replace` are not interpreted: the variables are inserted literally.
- `toLowerCase` and `toUpperCase` are modelled on ASCII letters only; `trim` removes the ECMAScript white-space and line-terminator characters.
- The anonymization step inside the chat and image handlers, and `extractPiiTypes`: the handlers are modelled from the security screen on, with the body as given.
- The embeddings and audio handlers: only `estimateTokens`, which the embeddings handler uses, is modelled.
- A project lookup that fails, and the rethrow of an `HttpException` in the handlers' catch block: the project is a parameter and is always found.
- `getByIdentity` in usage.service.ts: a read-only query ordered by the database.
- `onModuleDestroy` and the `setInterval` timer that calls `cleanup`: `Cleanup` is modelled as a method the caller invokes with `now`.
- Period names: the code treats any period other than 'weekly' and 'monthly', 'hourly' included, as daily; the model follows the code.
- Stream failures: when the provider stream fails part-way, the code only ends the response and finalizes nothing; the model follows the code.
- Console logging.
