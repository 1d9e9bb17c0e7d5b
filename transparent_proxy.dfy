/**
 * The transparent proxy's request handling (proxy/transparent-proxy.controller.ts):
 * the required headers, the UTC start of the limit period, the amounts a request
 * asks of the usage counters, the order of the security screen, the identity
 * check, the session check, the provider call and the usage finalization, and the
 * relay of a streamed response with its token accounting.
 *
 * The usage counters are the modelled `UsageService`. The services whose code is
 * not part of this model are oracles: their answers (`Collaborators`) are passed
 * in, and the calls made to them are recorded, in order, in `calls`.
 */
module TransparentProxy {

  import opened Wrappers
  import opened Strings
  import opened Json
  import opened Projects
  import opened Usage
  import opened RequestDtos

  // ---------------------------------------------------------------------------
  // Required headers.

  /** The request headers; a required header that is absent is "", which the code tests with `!header`. */
  datatype RequestHeaders = RequestHeaders(
    authorization: string,
    projectKey: string,
    identity: string,
    tier: Option<string>,
    /** `session || ''`. */
    session: string)

  const MissingProjectKey: string := "Missing x-project-key header"
  const MissingAuthorization: string := "Missing Authorization header with your API key"
  const MissingIdentity: string := "Missing x-identity header for rate limiting"

  /** The message of the UnauthorizedException a handler throws before anything else, if any. */
  function MissingHeader(h: RequestHeaders): (r: Option<string>)
    ensures r.None? <==> h.projectKey != "" && h.authorization != "" && h.identity != ""
    ensures h.projectKey == "" ==> r == Some(MissingProjectKey)
    ensures h.projectKey != "" && h.authorization == "" ==> r == Some(MissingAuthorization)
  {
    if h.projectKey == "" then Some(MissingProjectKey)
    else if h.authorization == "" then Some(MissingAuthorization)
    else if h.identity == "" then Some(MissingIdentity)
    else None
  }

  // ---------------------------------------------------------------------------
  // `getPeriodStart`: UTC calendar arithmetic. Times are milliseconds since
  // 1970-01-01T00:00:00Z; the clock is read once, as the UTC fields of `now`.

  const MsPerDay: int := 86400000

  /** A month as `getUTCMonth` numbers it, January being 0. */
  type Month = m: int | 0 <= m < 12

  predicate IsLeapYear(year: int) {
    year % 4 == 0 && (year % 100 != 0 || year % 400 == 0)
  }

  function DaysInMonth(year: int, month: Month): int {
    if month == 1 then (if IsLeapYear(year) then 29 else 28)
    else if month == 3 || month == 5 || month == 8 || month == 10 then 30
    else 31
  }

  /**
   * The number of days from 1970-01-01 to `date` `month` `year` in the proleptic
   * Gregorian calendar; a `date` outside the month counts on from its first day,
   * as `Date.UTC` does. The year is counted from March so that the leap day ends it.
   */
  function DaysFromCivil(year: int, month: Month, date: int): (days: int)
    ensures year == 1970 && month == 0 ==> days == date - 1
  {
    var y := if month < 2 then year - 1 else year;
    var shifted := if month < 2 then month + 10 else month - 2;
    365 * y + y / 4 - y / 100 + y / 400 + (153 * shifted + 2) / 5 + date - 1 - 719468
  }

  /** `Date.UTC(year, month, date)`: the years 0 to 99 are read as 1900 to 1999. */
  function DateUtc(year: int, month: Month, date: int): (t: int)
    ensures t % MsPerDay == 0
    ensures !(0 <= year <= 99) ==> t == DaysFromCivil(year, month, date) * MsPerDay
  {
    var fullYear := if 0 <= year <= 99 then 1900 + year else year;
    DaysFromCivil(fullYear, month, date) * MsPerDay
  }

  /** `getUTCDay` of the day `days` after 1970-01-01, which was a Thursday. */
  function Weekday(days: int): (d: int)
    ensures 0 <= d < 7
  {
    (days + 4) % 7
  }

  /** The UTC fields of the current time: `getUTCFullYear`, `getUTCMonth`, `getUTCDate`, `getUTCDay`. */
  datatype UtcNow = UtcNow(year: int, month: Month, date: int, day: int)

  /** The fields of one instant (outside the years 0 to 99, which `Date.UTC` moves). */
  predicate Consistent(now: UtcNow) {
    && 1 <= now.date <= DaysInMonth(now.year, now.month)
    && !(0 <= now.year <= 99)
    && now.day == Weekday(DaysFromCivil(now.year, now.month, now.date))
  }

  /** `getPeriodStart`: any period other than weekly and monthly starts at UTC midnight today. */
  function PeriodStart(limitPeriod: string, now: UtcNow): (t: int)
    ensures t % MsPerDay == 0
    ensures limitPeriod != "weekly" && limitPeriod != "monthly" ==> t == DateUtc(now.year, now.month, now.date)
    ensures limitPeriod == "weekly" ==> 0 <= DateUtc(now.year, now.month, now.date) - t <= 6 * MsPerDay
    ensures limitPeriod == "monthly" ==> DateUtc(now.year, now.month, now.date) - t == (now.date - 1) * MsPerDay
  {
    match limitPeriod
    case "daily" => DateUtc(now.year, now.month, now.date)
    case "weekly" =>
      var daysToMonday := (now.day + 6) % 7;
      DateUtc(now.year, now.month, now.date - daysToMonday)
    case "monthly" => DateUtc(now.year, now.month, 1)
    case _ => DateUtc(now.year, now.month, now.date)
  }

  /** `project.limitPeriod || 'daily'`. */
  function PeriodOf(project: Project): string {
    if project.limitPeriod != "" then project.limitPeriod else "daily"
  }

  // ---------------------------------------------------------------------------
  // What a request asks of the usage counters.

  /** JavaScript `x || fallback` on a number that may be undefined. */
  function OrNumber(x: Option<int>, fallback: int): (r: int)
    ensures x.Some? && x.value != 0 ==> r == x.value
    ensures x.None? || x.value == 0 ==> r == fallback
  {
    if x.Some? && x.value != 0 then x.value else fallback
  }

  datatype Amounts = Amounts(tokens: int, requests: int)

  /** A chat completion asks for one request and `max_tokens || 0` tokens. */
  function ChatAmounts(maxTokens: Option<int>): (a: Amounts)
    ensures a.requests == 1
    ensures a.tokens == if maxTokens.Some? then maxTokens.value else 0
  {
    Amounts(OrNumber(maxTokens, 0), 1)
  }

  /** An image generation asks for `n || 1` requests and no tokens. */
  function ImageAmounts(n: Option<int>): (a: Amounts)
    ensures a.tokens == 0
    ensures a.requests == OrNumber(n, 1)
  {
    Amounts(0, OrNumber(n, 1))
  }

  /** The text `estimateTokens` measures: the input, or its strings joined by ' '. */
  function InputText(input: EmbeddingInput): string {
    match input
    case Text(text) => text
    case Texts(texts) => Join(texts, " ")
  }

  /** `estimateTokens`: `Math.ceil(length / 4)`, where `length` counts UTF-16 code units. */
  function EstimateTokens(input: EmbeddingInput): (n: nat)
    ensures Utf16Length(InputText(input)) <= 4 * n < Utf16Length(InputText(input)) + 4
  {
    (Utf16Length(InputText(input)) + 3) / 4
  }

  // ---------------------------------------------------------------------------
  // Responses, collaborators and the calls made to them.

  /** What a handler ends with: a thrown UnauthorizedException, a JSON response, or an event stream. */
  datatype Outcome =
    | Unauthorized(message: string)
    | Respond(status: int, body: Json)
    | EventStream(written: seq<string>)

  function ErrorBody(message: Json, errorType: string, code: string): Json {
    JObj([("error", JObj([("message", message), ("type", JStr(errorType)), ("code", JStr(code))]))])
  }

  /** The 429 of an identity block: `limitResponse?.message || 'Rate limit exceeded'`. */
  function RateLimited(limitResponse: Option<Json>): Outcome {
    Respond(429, ErrorBody(Or(OptDot(limitResponse, "message"), JStr("Rate limit exceeded")),
                           "rate_limit_exceeded", "limit_exceeded"))
  }

  /** The 429 of a session block. */
  function SessionLimited(limitResponse: Option<Json>): Outcome {
    Respond(429, ErrorBody(Or(OptDot(limitResponse, "message"), JStr("Session limit exceeded")),
                           "session_limit_exceeded", "session_limit_exceeded"))
  }

  /** The 403 of a blocked prompt: `securityResult.reason || 'Request blocked by security policy'`. */
  function SecurityBlocked(reason: string): Outcome {
    Respond(403, ErrorBody(JStr(if reason != "" then reason else "Request blocked by security policy"),
                           "security_policy_violation", "security_blocked"))
  }

  /** The verdict of the security service on the messages, its heuristics included (`reason` "" when unset). */
  datatype SecurityVerdict = SecurityVerdict(allowed: bool, reason: string)

  /** The verdict of `checkSessionLimits`. */
  datatype LimitVerdict = LimitVerdict(allowed: bool, limitResponse: Option<Json>)

  /** The `response` of an error thrown by the provider call. */
  datatype ErrorResponse = ErrorResponse(status: Option<int>, data: Option<Json>)

  /** What `forwardRequest` does: return the provider's body, or throw. */
  datatype ProviderReply = Replied(body: Json) | Threw(response: Option<ErrorResponse>, message: string)

  /** The chunks `forwardStreamingRequest` yields, and whether it then ends normally or throws. */
  datatype StreamReply = StreamReply(chunks: seq<Json>, completed: bool)

  /** The answers of the collaborators whose code is not part of this model. */
  datatype Collaborators = Collaborators(
    security: SecurityVerdict,
    session: LimitVerdict,
    /** `getProviderUrl(detectProvider(model))`. */
    providerUrl: string,
    reply: ProviderReply,
    stream: StreamReply,
    /** `JSON.stringify`. */
    stringify: Json -> string,
    /** `JSON.parse`, used by the usage check. */
    parse: string -> Option<Json>)

  /** A call to a collaborator, with the arguments the model tracks. */
  datatype Call =
    | SecurityEventSaved(blocked: bool)
    | BlockedRequestTracked(periodStart: int)
    | SessionLimitsChecked(session: string, periodStart: int, requestedTokens: int, requestedRequests: int)
    | Forwarded(url: string)
    | ForwardedStream(url: string)
    | UsageFinalized(periodStart: int, inputTokens: int, outputTokens: int)

  /** The error response of a failed provider call: the provider's own, or a 500. */
  function ProviderFailure(response: Option<ErrorResponse>, message: string): (o: Outcome)
    ensures o.Respond?
    ensures response.Some? && IsTruthy(response.value.data)
            ==> o.body == response.value.data.value && o.status == OrNumber(response.value.status, 500)
    ensures response.None? || !IsTruthy(response.value.data) ==> o.status == 500
  {
    if response.Some? && IsTruthy(response.value.data) then
      Respond(OrNumber(response.value.status, 500), response.value.data.value)
    else
      Respond(500, ErrorBody(JStr(if message != "" then message else "Internal server error"),
                             "proxy_error", "internal_error"))
  }

  // ---------------------------------------------------------------------------
  // Token counts reported by the provider.

  /** `usage?.[field] || fallback` for a count the provider reports as a number. */
  function UsageNumber(usage: Option<Json>, field: string, fallback: int): int {
    var v := OptDot(usage, field);
    if IsTruthy(v) && v.value.JNum? then v.value.n else fallback
  }

  /** The non-zero count a chunk or response reports for `field`, if any. */
  function Reported(j: Json, field: string): (r: Option<int>)
    ensures r.Some? ==> r.value != 0
  {
    var v := OptDot(Get(j, "usage"), field);
    if IsTruthy(v) && v.value.JNum? then Some(v.value.n) else None
  }

  datatype TokenCounts = TokenCounts(input: int, output: int, total: int)

  /**
   * The counts of a unary response, each `providerResponse.usage?.… || 0`. Only
   * `usage` is optional-chained, so reading it from a `null` response throws.
   */
  function UnaryTokens(response: Json): (r: Result<TokenCounts, TypeError>)
    ensures r.Err? <==> response == JNull
    ensures r.Ok? ==> r.value.input == (if Reported(response, "prompt_tokens").Some? then Reported(response, "prompt_tokens").value else 0)
    ensures r.Ok? ==> r.value.output == (if Reported(response, "completion_tokens").Some? then Reported(response, "completion_tokens").value else 0)
    ensures r.Ok? ==> r.value.total == (if Reported(response, "total_tokens").Some? then Reported(response, "total_tokens").value else 0)
  {
    match Dot(Some(response), "usage")
    case Err(e) => Err(e)
    case Ok(usage) =>
      Ok(TokenCounts(UsageNumber(usage, "prompt_tokens", 0), UsageNumber(usage, "completion_tokens", 0),
                     UsageNumber(usage, "total_tokens", 0)))
  }

  /** The message Node gives the TypeError of reading `usage` from `null`. */
  const NullUsageMessage: string := "Cannot read properties of null (reading 'usage')"

  // ---------------------------------------------------------------------------
  // `handleStreamingRequest`, specified.

  const DoneLine: string := "data: [DONE]\n\n"

  /** The event written for a chunk. */
  function DataLine(chunk: Json, stringify: Json -> string): string {
    "data: " + stringify(chunk) + "\n\n"
  }

  function DataLines(chunks: seq<Json>, stringify: Json -> string): (lines: seq<string>)
    ensures |lines| == |chunks|
    ensures forall k :: 0 <= k < |chunks| ==> lines[k] == DataLine(chunks[k], stringify)
  {
    seq(|chunks|, k requires 0 <= k < |chunks| => DataLine(chunks[k], stringify))
  }

  /** How many chunks are relayed before one is `null`, whose `usage` cannot be read. */
  function Readable(chunks: seq<Json>): (n: nat)
    ensures n <= |chunks|
    ensures forall k :: 0 <= k < n ==> chunks[k] != JNull
    ensures n < |chunks| ==> chunks[n] == JNull
  {
    if |chunks| == 0 || chunks[0] == JNull then 0
    else
      var n := 1 + Readable(chunks[1..]);
      assert forall k :: 1 <= k < n ==> chunks[k] == chunks[1..][k - 1];
      n
  }

  /** The running count after `chunks`: `chunk.usage.[field] || count`, starting from 0. */
  function StreamTokens(chunks: seq<Json>, field: string): int
    decreases |chunks|
  {
    if |chunks| == 0 then 0
    else
      var last := chunks[|chunks| - 1];
      var r := Reported(last, field);
      if r.Some? then r.value else StreamTokens(chunks[..|chunks| - 1], field)
  }

  datatype Relayed = Relayed(written: seq<string>, finalize: Option<(int, int)>)

  /**
   * The events written and the usage finalized for a streamed reply: one event per
   * chunk read, then `[DONE]` and the finalization only when the stream ended
   * normally, and the finalization only when the counts add up to more than 0.
   */
  function Relay(stream: StreamReply, stringify: Json -> string): (r: Relayed)
  {
    var n := Readable(stream.chunks);
    var read := stream.chunks[..n];
    if n == |stream.chunks| && stream.completed then
      var input := StreamTokens(read, "prompt_tokens");
      var output := StreamTokens(read, "completion_tokens");
      Relayed(DataLines(read, stringify) + [DoneLine], if input + output > 0 then Some((input, output)) else None)
    else
      Relayed(DataLines(read, stringify), None)
  }

  /** The relay's state after the first `i` chunks, all of them readable. */
  ghost predicate RelayedUpTo(chunks: seq<Json>, stringify: Json -> string, i: int,
                              written: seq<string>, inputTokens: int, outputTokens: int)
  {
    && 0 <= i <= Readable(chunks)
    && written == DataLines(chunks[..i], stringify)
    && inputTokens == StreamTokens(chunks[..i], "prompt_tokens")
    && outputTokens == StreamTokens(chunks[..i], "completion_tokens")
  }

  /** `if (chunk.usage) count = chunk.usage.[field] || count` keeps the latest count reported. */
  lemma UsageUpdate(chunk: Json, field: string, count: int)
    ensures (if IsTruthy(Get(chunk, "usage")) then UsageNumber(Get(chunk, "usage"), field, count) else count)
            == (if Reported(chunk, field).Some? then Reported(chunk, field).value else count)
  {
  }

  /** One more readable chunk: its event is written and its counts, if any, replace the running ones. */
  lemma {:induction false} RelayNext(chunks: seq<Json>, stringify: Json -> string, i: int,
                                     written: seq<string>, inputTokens: int, outputTokens: int,
                                     written': seq<string>, inputTokens': int, outputTokens': int)
    requires RelayedUpTo(chunks, stringify, i, written, inputTokens, outputTokens)
    requires i < |chunks| && chunks[i] != JNull
    requires written' == written + [DataLine(chunks[i], stringify)]
    requires var usage := Get(chunks[i], "usage");
             && inputTokens' == (if IsTruthy(usage) then UsageNumber(usage, "prompt_tokens", inputTokens) else inputTokens)
             && outputTokens' == (if IsTruthy(usage) then UsageNumber(usage, "completion_tokens", outputTokens) else outputTokens)
    ensures RelayedUpTo(chunks, stringify, i + 1, written', inputTokens', outputTokens')
  {
    UsageUpdate(chunks[i], "prompt_tokens", inputTokens);
    UsageUpdate(chunks[i], "completion_tokens", outputTokens);
    var next := chunks[..i + 1];
    assert next[..i] == chunks[..i];
    assert next[i] == chunks[i];
    assert DataLines(next, stringify) == DataLines(chunks[..i], stringify) + [DataLine(chunks[i], stringify)];
  }

  /** `handleStreamingRequest`'s loop over the chunks and what follows it. */
  method RelayStream(stream: StreamReply, stringify: Json -> string) returns (written: seq<string>, finalize: Option<(int, int)>)
    ensures Relayed(written, finalize) == Relay(stream, stringify)
  {
    var chunks := stream.chunks;
    var inputTokens := 0;
    var outputTokens := 0;
    written := [];
    var i := 0;
    assert chunks[..0] == [];
    while i < |chunks|
      invariant RelayedUpTo(chunks, stringify, i, written, inputTokens, outputTokens)
    {
      var chunk := chunks[i];
      if chunk == JNull {
        // Reading `chunk.usage` throws; the handler's catch only ends the response.
        return written, None;
      }
      ghost var (written0, input0, output0) := (written, inputTokens, outputTokens);
      var usage := Get(chunk, "usage");
      if IsTruthy(usage) {
        inputTokens := UsageNumber(usage, "prompt_tokens", inputTokens);
        outputTokens := UsageNumber(usage, "completion_tokens", outputTokens);
      }
      written := written + [DataLine(chunk, stringify)];
      RelayNext(chunks, stringify, i, written0, input0, output0, written, inputTokens, outputTokens);
      i := i + 1;
    }
    assert chunks[..i] == chunks;
    if !stream.completed {
      return written, None;
    }
    written := written + [DoneLine];
    if inputTokens + outputTokens > 0 {
      finalize := Some((inputTokens, outputTokens));
    } else {
      finalize := None;
    }
  }

  // ---------------------------------------------------------------------------
  // The handlers, specified.

  /** The security screen of a chat request (`securityEnabled` and messages present). */
  datatype Screened = Screened(calls: seq<Call>, blocked: Option<Outcome>)

  function SecurityScreen(project: Project, hasMessages: bool, verdict: SecurityVerdict): (s: Screened)
    ensures s.blocked.Some? <==> project.securityEnabled && hasMessages && !verdict.allowed && project.securityMode == "block"
    ensures s.blocked.Some? ==> s.blocked.value == SecurityBlocked(verdict.reason)
    ensures |s.calls| <= 1
    ensures s.calls != [] <==> project.securityEnabled && hasMessages && !verdict.allowed
  {
    if project.securityEnabled && hasMessages && !verdict.allowed then
      var saved := [SecurityEventSaved(project.securityMode == "block")];
      if project.securityMode == "block" then Screened(saved, Some(SecurityBlocked(verdict.reason)))
      else Screened(saved, None)
    else Screened([], None)
  }

  /** The result of the usage and session checks: a rejection, if any, the calls made and the new counters. */
  datatype Admitted = Admitted(rejection: Option<Outcome>, calls: seq<Call>, counters: map<CounterKey, Counter>)

  /**
   * `checkAndUpdateUsage` for the identity, then, when it allows and the project
   * has session limits and the request names a session, `checkSessionLimits`.
   */
  function Admission(project: Project, identity: string, tier: Option<string>, session: string, periodStart: int,
                     amounts: Amounts, counters: map<CounterKey, Counter>, sessionVerdict: LimitVerdict,
                     parse: string -> Option<Json>): (r: Admitted)
  {
    var key := CounterKey(project.id, identity, periodStart);
    match Check(project, tier, CurrentOrZero(counters, key), amounts.tokens, amounts.requests, parse)
    case Blocked(response) =>
      Admitted(Some(RateLimited(Some(response))), [BlockedRequestTracked(periodStart)], counters)
    case Allowed(next) =>
      if project.sessionLimitsEnabled && session != "" then
        var checked := [SessionLimitsChecked(session, periodStart, amounts.tokens, amounts.requests)];
        Admitted(if sessionVerdict.allowed then None else Some(SessionLimited(sessionVerdict.limitResponse)),
                 checked, counters[key := next])
      else
        Admitted(None, [], counters[key := next])
  }

  /** What a handler ends with, the calls it made, and the usage counters afterwards. */
  datatype Handled = Handled(outcome: Outcome, calls: seq<Call>, counters: map<CounterKey, Counter>)

  /** The parts of a chat body the handler reads: `max_tokens`, `stream === true`, and whether `messages` is set. */
  datatype ChatRequest = ChatRequest(maxTokens: Option<int>, stream: bool, hasMessages: bool)

  /** The usage finalization of a reply, if the handler makes one. */
  function Finalization(periodStart: int, finalize: Option<(int, int)>): seq<Call> {
    if finalize.Some? then [UsageFinalized(periodStart, finalize.value.0, finalize.value.1)] else []
  }

  /** What a handler does once the request is admitted: the outcome and the calls made. */
  datatype Delivered = Delivered(outcome: Outcome, calls: seq<Call>)

  /** The usage and session checks, then, when both let the request through, its delivery `d`. */
  function AdmitThenDeliver(h: RequestHeaders, project: Project, periodStart: int, amounts: Amounts, c: Collaborators,
                            counters: map<CounterKey, Counter>, d: Delivered): (r: Handled)
  {
    var a := Admission(project, h.identity, h.tier, h.session, periodStart, amounts, counters, c.session, c.parse);
    if a.rejection.Some? then Handled(a.rejection.value, a.calls, a.counters)
    else Handled(d.outcome, a.calls + d.calls, a.counters)
  }

  /** `chatCompletions`, without anonymization. */
  function Chat(h: RequestHeaders, body: ChatRequest, project: Project, now: UtcNow, c: Collaborators,
                counters: map<CounterKey, Counter>): (r: Handled)
  {
    match MissingHeader(h)
    case Some(message) => Handled(Unauthorized(message), [], counters)
    case None => ChatScreened(h, body, project, now, c, counters)
  }

  /** A chat request with its headers: the security screen, then the checks and the delivery. */
  function ChatScreened(h: RequestHeaders, body: ChatRequest, project: Project, now: UtcNow, c: Collaborators,
                        counters: map<CounterKey, Counter>): (r: Handled)
  {
    var screened := SecurityScreen(project, body.hasMessages, c.security);
    if screened.blocked.Some? then Handled(screened.blocked.value, screened.calls, counters)
    else
      var periodStart := PeriodStart(PeriodOf(project), now);
      var r := AdmitThenDeliver(h, project, periodStart, ChatAmounts(body.maxTokens), c, counters,
                                ChatDelivery(body.stream, c, periodStart));
      Handled(r.outcome, screened.calls + r.calls, r.counters)
  }

  /** The provider call of an admitted chat request and the usage finalization after it. */
  function ChatDelivery(stream: bool, c: Collaborators, periodStart: int): (d: Delivered)
  {
    if stream then
      var relayed := Relay(c.stream, c.stringify);
      Delivered(EventStream(relayed.written), [ForwardedStream(c.providerUrl)] + Finalization(periodStart, relayed.finalize))
    else
      match c.reply
      case Threw(response, message) => Delivered(ProviderFailure(response, message), [Forwarded(c.providerUrl)])
      case Replied(reply) =>
        match UnaryTokens(reply)
        case Err(_) => Delivered(ProviderFailure(None, NullUsageMessage), [Forwarded(c.providerUrl)])
        case Ok(t) =>
          Delivered(Respond(200, reply),
                    [Forwarded(c.providerUrl)] + Finalization(periodStart, if t.total > 0 then Some((t.input, t.output)) else None))
  }

  const ImagesUrl: string := "https://api.openai.com/v1/images/generations"

  /** `imagesGenerations`: usage finalized, with no tokens, whenever the provider answers. */
  function Images(h: RequestHeaders, n: Option<int>, project: Project, now: UtcNow, c: Collaborators,
                  counters: map<CounterKey, Counter>): (r: Handled)
  {
    match MissingHeader(h)
    case Some(message) => Handled(Unauthorized(message), [], counters)
    case None =>
      var periodStart := PeriodStart(PeriodOf(project), now);
      AdmitThenDeliver(h, project, periodStart, ImageAmounts(n), c, counters, ImageDelivery(c, periodStart))
  }

  /** The provider call of an admitted image request: usage is finalized, with no tokens, when it answers. */
  function ImageDelivery(c: Collaborators, periodStart: int): (d: Delivered)
  {
    match c.reply
    case Threw(response, message) => Delivered(ProviderFailure(response, message), [Forwarded(ImagesUrl)])
    case Replied(reply) => Delivered(Respond(200, reply), [Forwarded(ImagesUrl), UsageFinalized(periodStart, 0, 0)])
  }

  // ---------------------------------------------------------------------------
  // The controller.

  class TransparentProxyController {

    /** The usage counters, shared with the rest of the gateway. */
    const usage: UsageService

    /** The calls made to the collaborators, in order. */
    var calls: seq<Call>

    constructor(usage: UsageService)
      ensures this.usage == usage && calls == []
    {
      this.usage := usage;
      calls := [];
    }

    /** The identity check and the session check shared by the handlers. */
    method Admit(project: Project, identity: string, tier: Option<string>, session: string, periodStart: int,
                 amounts: Amounts, sessionVerdict: LimitVerdict, parse: string -> Option<Json>)
      returns (rejection: Option<Outcome>)
      modifies this, usage
      ensures var a := Admission(project, identity, tier, session, periodStart, amounts, old(usage.counters),
                                 sessionVerdict, parse);
              rejection == a.rejection && calls == old(calls) + a.calls && usage.counters == a.counters
    {
      var check := usage.CheckAndUpdateUsage(project, identity, tier, periodStart, amounts.tokens, amounts.requests, parse);
      if !check.allowed {
        calls := calls + [BlockedRequestTracked(periodStart)];
        return Some(RateLimited(check.limitResponse));
      }
      rejection := None;
      if project.sessionLimitsEnabled && session != "" {
        calls := calls + [SessionLimitsChecked(session, periodStart, amounts.tokens, amounts.requests)];
        if !sessionVerdict.allowed {
          rejection := Some(SessionLimited(sessionVerdict.limitResponse));
        }
      }
    }

    /** `chatCompletions`. */
    method ChatCompletions(h: RequestHeaders, body: ChatRequest, project: Project, now: UtcNow, c: Collaborators)
      returns (outcome: Outcome)
      modifies this, usage
      ensures var r := Chat(h, body, project, now, c, old(usage.counters));
              outcome == r.outcome && calls == old(calls) + r.calls && usage.counters == r.counters
    {
      var missing := MissingHeader(h);
      if missing.Some? {
        return Unauthorized(missing.value);
      }
      outcome := ChatWithHeaders(h, body, project, now, c);
    }

    /** The screen, the checks and the delivery of a chat request whose headers are present. */
    method ChatWithHeaders(h: RequestHeaders, body: ChatRequest, project: Project, now: UtcNow, c: Collaborators)
      returns (outcome: Outcome)
      modifies this, usage
      ensures var r := ChatScreened(h, body, project, now, c, old(usage.counters));
              outcome == r.outcome && calls == old(calls) + r.calls && usage.counters == r.counters
    {
      var blocked := Screen(project, body.hasMessages, c.security);
      if blocked.Some? {
        return blocked.value;
      }
      var periodStart := PeriodStart(PeriodOf(project), now);
      ghost var screened := SecurityScreen(project, body.hasMessages, c.security);
      ghost var r := AdmitThenDeliver(h, project, periodStart, ChatAmounts(body.maxTokens), c, usage.counters,
                                      ChatDelivery(body.stream, c, periodStart));
      outcome := ChatLimited(h, body, project, periodStart, c);
      AppendAssociates(old(calls), screened.calls, r.calls);
    }

    /** The checks and the delivery of a chat request that passed the security screen. */
    method ChatLimited(h: RequestHeaders, body: ChatRequest, project: Project, periodStart: int, c: Collaborators)
      returns (outcome: Outcome)
      modifies this, usage
      ensures var r := AdmitThenDeliver(h, project, periodStart, ChatAmounts(body.maxTokens), c, old(usage.counters),
                                        ChatDelivery(body.stream, c, periodStart));
              outcome == r.outcome && calls == old(calls) + r.calls && usage.counters == r.counters
    {
      var rejection := Admit(project, h.identity, h.tier, h.session, periodStart, ChatAmounts(body.maxTokens),
                             c.session, c.parse);
      if rejection.Some? {
        return rejection.value;
      }
      outcome := Deliver(body.stream, c, periodStart);
    }

    /** The security screen: the event is saved whenever the prompt is flagged, and only a 'block' mode stops it. */
    method Screen(project: Project, hasMessages: bool, verdict: SecurityVerdict) returns (blocked: Option<Outcome>)
      modifies this
      ensures var s := SecurityScreen(project, hasMessages, verdict);
              blocked == s.blocked && calls == old(calls) + s.calls
    {
      blocked := None;
      if project.securityEnabled && hasMessages && !verdict.allowed {
        calls := calls + [SecurityEventSaved(project.securityMode == "block")];
        if project.securityMode == "block" {
          blocked := Some(SecurityBlocked(verdict.reason));
        }
      }
    }

    /** The provider call of an admitted chat request, the stream relay, and the usage finalization. */
    method Deliver(stream: bool, c: Collaborators, periodStart: int) returns (outcome: Outcome)
      modifies this
      ensures var d := ChatDelivery(stream, c, periodStart);
              outcome == d.outcome && calls == old(calls) + d.calls
    {
      if stream {
        calls := calls + [ForwardedStream(c.providerUrl)];
        var written, finalize := RelayStream(c.stream, c.stringify);
        if finalize.Some? {
          calls := calls + [UsageFinalized(periodStart, finalize.value.0, finalize.value.1)];
        }
        return EventStream(written);
      }
      calls := calls + [Forwarded(c.providerUrl)];
      match c.reply {
        case Threw(response, message) =>
          outcome := ProviderFailure(response, message);
        case Replied(reply) =>
          var tokens := UnaryTokens(reply);
          if tokens.Err? {
            return ProviderFailure(None, NullUsageMessage);
          }
          if tokens.value.total > 0 {
            calls := calls + [UsageFinalized(periodStart, tokens.value.input, tokens.value.output)];
          }
          outcome := Respond(200, reply);
      }
    }

    /** `imagesGenerations`. */
    method ImagesGenerations(h: RequestHeaders, n: Option<int>, project: Project, now: UtcNow, c: Collaborators)
      returns (outcome: Outcome)
      modifies this, usage
      ensures var r := Images(h, n, project, now, c, old(usage.counters));
              outcome == r.outcome && calls == old(calls) + r.calls && usage.counters == r.counters
    {
      var missing := MissingHeader(h);
      if missing.Some? {
        return Unauthorized(missing.value);
      }
      var periodStart := PeriodStart(PeriodOf(project), now);
      var rejection := Admit(project, h.identity, h.tier, h.session, periodStart, ImageAmounts(n), c.session, c.parse);
      if rejection.Some? {
        return rejection.value;
      }
      outcome := DeliverImage(c, periodStart);
    }

    /** The provider call of an admitted image request and the usage finalization after it. */
    method DeliverImage(c: Collaborators, periodStart: int) returns (outcome: Outcome)
      modifies this
      ensures var d := ImageDelivery(c, periodStart);
              outcome == d.outcome && calls == old(calls) + d.calls
    {
      calls := calls + [Forwarded(ImagesUrl)];
      match c.reply {
        case Threw(response, message) =>
          outcome := ProviderFailure(response, message);
        case Replied(reply) =>
          calls := calls + [UsageFinalized(periodStart, 0, 0)];
          outcome := Respond(200, reply);
      }
    }
  }

  // ---------------------------------------------------------------------------
  // Properties of the period start.

  /** `floor(y / n)` grows by one exactly when `y` is a multiple of `n`. */
  lemma DivStep(y: int, n: int)
    requires n == 4 || n == 100 || n == 400
    ensures y / n - (y - 1) / n == if y % n == 0 then 1 else 0
  {
  }

  /** The days the leap rule adds up to a year: one exactly in a leap year. */
  lemma LeapDays(year: int)
    ensures (year / 4 - year / 100 + year / 400) - ((year - 1) / 4 - (year - 1) / 100 + (year - 1) / 400)
            == if IsLeapYear(year) then 1 else 0
  {
    DivStep(year, 4);
    DivStep(year, 100);
    DivStep(year, 400);
    MultipleOfMultiple(year, 400, 100);
    MultipleOfMultiple(year, 100, 4);
  }

  /** A multiple of `m` is a multiple of every divisor `n` of `m`. */
  lemma MultipleOfMultiple(y: int, m: int, n: int)
    requires (m, n) == (400, 100) || (m, n) == (100, 4)
    ensures y % m == 0 ==> y % n == 0
  {
    if y % m == 0 {
      var k := y / m;
      assert y == n * ((m / n) * k);
    }
  }

  /** The day after the last day of a month is the first day of the next month, leap years included. */
  lemma MonthsAreContiguous(year: int, month: Month)
    ensures month < 11 ==> DaysFromCivil(year, month, DaysInMonth(year, month) + 1) == DaysFromCivil(year, month + 1, 1)
    ensures month == 11 ==> DaysFromCivil(year, 11, DaysInMonth(year, 11) + 1) == DaysFromCivil(year + 1, 0, 1)
  {
    if month == 1 {
      LeapDays(year);
    }
  }

  /**
   * The weekly period starts at midnight of the Monday on or before today: day
   * `7q - 3` for the `q`-th week, 1970-01-05 being a Monday.
   */
  lemma WeeklyStart(now: UtcNow)
    requires Consistent(now)
    ensures var days := DaysFromCivil(now.year, now.month, now.date);
            PeriodStart("weekly", now) == (7 * ((days + 3) / 7) - 3) * MsPerDay
    ensures Weekday(PeriodStart("weekly", now) / MsPerDay) == 1
  {
    var days := DaysFromCivil(now.year, now.month, now.date);
    var back := (now.day + 6) % 7;
    var q := (days + 3) / 7;
    MondayBefore(days);
    assert back == (days + 3) % 7;
    assert DaysFromCivil(now.year, now.month, now.date - back) == 7 * q - 3;
    DayOfStart(7 * q - 3);
  }

  /** Going back `(getUTCDay() + 6) % 7` days from day `days` lands on day `7q - 3`, a Monday. */
  lemma MondayBefore(days: int)
    ensures ((days + 4) % 7 + 6) % 7 == (days + 3) % 7
    ensures days - (days + 3) % 7 == 7 * ((days + 3) / 7) - 3
    ensures Weekday(7 * ((days + 3) / 7) - 3) == 1
  {
  }

  /** The day number of a start of day. */
  lemma DayOfStart(days: int)
    ensures days * MsPerDay / MsPerDay == days
  {
  }

  /** Two days share a weekly period exactly when they fall in the same Monday-to-Sunday week. */
  lemma SameWeekSamePeriod(now1: UtcNow, now2: UtcNow)
    requires Consistent(now1) && Consistent(now2)
    ensures PeriodStart("weekly", now1) == PeriodStart("weekly", now2)
            <==> (DaysFromCivil(now1.year, now1.month, now1.date) + 3) / 7
                 == (DaysFromCivil(now2.year, now2.month, now2.date) + 3) / 7
  {
    WeeklyStart(now1);
    WeeklyStart(now2);
  }

  /** The monthly period is the calendar month: it starts on its first day and the next one on the day after its last. */
  lemma MonthlyCoversTheMonth(now: UtcNow)
    requires Consistent(now)
    ensures var start := PeriodStart("monthly", now);
            && start <= PeriodStart("daily", now) < start + DaysInMonth(now.year, now.month) * MsPerDay
            && start == DaysFromCivil(now.year, now.month, 1) * MsPerDay
    ensures now.month < 11 ==>
              PeriodStart("monthly", now) + DaysInMonth(now.year, now.month) * MsPerDay
              == DaysFromCivil(now.year, now.month + 1, 1) * MsPerDay
    ensures now.month == 11 ==>
              PeriodStart("monthly", now) + DaysInMonth(now.year, now.month) * MsPerDay
              == DaysFromCivil(now.year + 1, 0, 1) * MsPerDay
  {
    MonthsAreContiguous(now.year, now.month);
  }

  // ---------------------------------------------------------------------------
  // Properties of the amounts.

  /** Were the bodies validated as the DTOs declare, the amounts would stay within the DTO bounds. */
  lemma DtoBoundsKeepAmountsInRange(chat: ChatCompletionsDto, image: ImageGenerationDto)
    ensures ValidChat(chat) ==> 0 <= ChatAmounts(chat.maxTokens).tokens <= 128000
    ensures ValidImage(image) ==> 1 <= ImageAmounts(image.n).requests <= 10
  {
  }

  /** The sum of the `length`s of `texts`. */
  function TotalLength(texts: seq<string>): nat {
    if |texts| == 0 then 0 else Utf16Length(texts[0]) + TotalLength(texts[1..])
  }

  /** Joining with ' ' adds one code unit between neighbours. */
  lemma {:induction false} JoinLength(texts: seq<string>)
    requires |texts| > 0
    ensures Utf16Length(Join(texts, " ")) == TotalLength(texts) + |texts| - 1
  {
    if |texts| > 1 {
      JoinLength(texts[1..]);
      Utf16Append(texts[0] + " ", Join(texts[1..], " "));
      Utf16Append(texts[0], " ");
      assert Utf16Length(" ") == 1 by {
        assert " "[..0] == "";
      }
    }
  }

  /** A character above U+FFFF is two code units: four emoji are eight units, two tokens. */
  lemma EstimateCountsCodeUnits()
    ensures EstimateTokens(Text("\U{1F600}\U{1F600}\U{1F600}\U{1F600}")) == 2
  {
    var e := "\U{1F600}";
    assert Utf16Length(e) == 2 by {
      assert e[..0] == "";
    }
    assert Utf16Length(e + e) == 4 by {
      Utf16Append(e, e);
    }
    assert (e + e) + (e + e) == "\U{1F600}\U{1F600}\U{1F600}\U{1F600}";
    Utf16Append(e + e, e + e);
  }

  /** The estimate of a list of strings counts their code units and the separating spaces. */
  lemma EstimateOfTexts(texts: seq<string>)
    ensures |texts| > 0 ==> EstimateTokens(Texts(texts)) == (TotalLength(texts) + |texts| - 1 + 3) / 4
    ensures |texts| == 0 ==> EstimateTokens(Texts(texts)) == 0
  {
    if |texts| > 0 {
      JoinLength(texts);
    }
  }

  // ---------------------------------------------------------------------------
  // Properties of the stream relay.

  /** The running count is the one the last chunk reporting a non-zero count gave. */
  lemma {:induction false} LatestReportWins(chunks: seq<Json>, field: string, j: int)
    requires 0 <= j < |chunks| && Reported(chunks[j], field).Some?
    requires forall k :: j < k < |chunks| ==> Reported(chunks[k], field).None?
    ensures StreamTokens(chunks, field) == Reported(chunks[j], field).value
    decreases |chunks|
  {
    var last := |chunks| - 1;
    if j < last {
      var init := chunks[..last];
      assert Reported(chunks[last], field).None?;
      assert init[j] == chunks[j];
      assert forall k :: j < k < |init| ==> init[k] == chunks[k];
      LatestReportWins(init, field, j);
    }
  }

  /** The running count stays 0 when no chunk reports a non-zero count. */
  lemma {:induction false} NoReportIsZero(chunks: seq<Json>, field: string)
    requires forall k :: 0 <= k < |chunks| ==> Reported(chunks[k], field).None?
    ensures StreamTokens(chunks, field) == 0
    decreases |chunks|
  {
    if |chunks| > 0 {
      var init := chunks[..|chunks| - 1];
      assert Reported(chunks[|chunks| - 1], field).None?;
      assert forall k :: 0 <= k < |init| ==> init[k] == chunks[k];
      NoReportIsZero(init, field);
    }
  }

  /**
   * What the relay writes: one event per chunk read; `[DONE]` after them exactly
   * when every chunk was read and the stream ended normally; and the usage is
   * finalized only then, and only when the counts add up to more than 0.
   */
  lemma RelayWritesEvents(stream: StreamReply, stringify: Json -> string)
    ensures var r := Relay(stream, stringify);
            var n := Readable(stream.chunks);
            var ended := n == |stream.chunks| && stream.completed;
            && |r.written| == n + (if ended then 1 else 0)
            && (forall k :: 0 <= k < n ==> r.written[k] == DataLine(stream.chunks[k], stringify))
            && (ended ==> r.written[n] == DoneLine)
            && (forall k :: 0 <= k < |r.written| ==> "data: " <= r.written[k])
            && (r.finalize.Some? <==> ended && StreamTokens(stream.chunks, "prompt_tokens")
                                             + StreamTokens(stream.chunks, "completion_tokens") > 0)
            && (r.finalize.Some? ==> r.finalize.value == (StreamTokens(stream.chunks, "prompt_tokens"),
                                                          StreamTokens(stream.chunks, "completion_tokens")))
  {
    var n := Readable(stream.chunks);
    var read := stream.chunks[..n];
    assert forall k :: 0 <= k < n ==> read[k] == stream.chunks[k];
    forall k | 0 <= k < n
      ensures "data: " <= DataLine(stream.chunks[k], stringify)
    {
      var line := DataLine(stream.chunks[k], stringify);
      assert line[..6] == "data: ";
    }
    assert DoneLine[..6] == "data: ";
    if n == |stream.chunks| {
      assert read == stream.chunks;
    }
  }

  // ---------------------------------------------------------------------------
  // Properties of the handlers.

  /** A call to the provider, unary or streamed. */
  predicate IsForward(call: Call) {
    call.Forwarded? || call.ForwardedStream?
  }

  predicate Forwards(calls: seq<Call>) {
    exists i :: 0 <= i < |calls| && IsForward(calls[i])
  }

  predicate ChecksSession(calls: seq<Call>) {
    exists i :: 0 <= i < |calls| && calls[i].SessionLimitsChecked?
  }

  predicate Finalizes(calls: seq<Call>) {
    exists i :: 0 <= i < |calls| && calls[i].UsageFinalized?
  }

  /** A missing header is reported before anything is checked, called or counted. */
  lemma HeadersCheckedFirst(h: RequestHeaders, body: ChatRequest, n: Option<int>, project: Project, now: UtcNow,
                            c: Collaborators, counters: map<CounterKey, Counter>)
    requires MissingHeader(h).Some?
    ensures Chat(h, body, project, now, c, counters) == Handled(Unauthorized(MissingHeader(h).value), [], counters)
    ensures Images(h, n, project, now, c, counters) == Handled(Unauthorized(MissingHeader(h).value), [], counters)
  {
  }

  /** A prompt blocked by the security screen is answered 403 and charges nothing. */
  lemma SecurityBlockChargesNothing(h: RequestHeaders, body: ChatRequest, project: Project, now: UtcNow,
                                    c: Collaborators, counters: map<CounterKey, Counter>)
    requires MissingHeader(h).None?
    requires project.securityEnabled && body.hasMessages && !c.security.allowed && project.securityMode == "block"
    ensures var r := Chat(h, body, project, now, c, counters);
            && r.counters == counters
            && r.calls == [SecurityEventSaved(true)]
            && r.outcome.Respond? && r.outcome.status == 403
  {
  }

  /** An identity over its limit: the block is tracked, 429 is answered, and nothing else is called or counted. */
  lemma IdentityBlockStopsTheRequest(h: RequestHeaders, project: Project, periodStart: int, amounts: Amounts,
                                     c: Collaborators, counters: map<CounterKey, Counter>, d: Delivered)
    requires var key := CounterKey(project.id, h.identity, periodStart);
             Check(project, h.tier, CurrentOrZero(counters, key), amounts.tokens, amounts.requests, c.parse).Blocked?
    ensures var r := AdmitThenDeliver(h, project, periodStart, amounts, c, counters, d);
            && r.calls == [BlockedRequestTracked(periodStart)]
            && r.counters == counters
            && r.outcome.Respond? && r.outcome.status == 429
            && !Forwards(r.calls) && !ChecksSession(r.calls)
  {
  }

  /**
   * The session limits are consulted exactly when the identity check allows,
   * the project has session limits on, and the request names a session.
   */
  lemma SessionCheckedOnlyAfterIdentity(h: RequestHeaders, project: Project, periodStart: int, amounts: Amounts,
                                        c: Collaborators, counters: map<CounterKey, Counter>, d: Delivered)
    requires !ChecksSession(d.calls)
    ensures var key := CounterKey(project.id, h.identity, periodStart);
            var check := Check(project, h.tier, CurrentOrZero(counters, key), amounts.tokens, amounts.requests, c.parse);
            ChecksSession(AdmitThenDeliver(h, project, periodStart, amounts, c, counters, d).calls)
            <==> check.Allowed? && project.sessionLimitsEnabled && h.session != ""
  {
    var key := CounterKey(project.id, h.identity, periodStart);
    var a := Admission(project, h.identity, h.tier, h.session, periodStart, amounts, counters, c.session, c.parse);
    var r := AdmitThenDeliver(h, project, periodStart, amounts, c, counters, d);
    if a.rejection.None? {
      if ChecksSession(r.calls) {
        var i :| 0 <= i < |r.calls| && r.calls[i].SessionLimitsChecked?;
      }
    }
    if a.calls != [] && a.calls[0].SessionLimitsChecked? {
      assert r.calls[0] == a.calls[0];
    }
  }

  /**
   * The provider is called only for a request both checks let through, and by
   * then the identity's counter already holds the request's amounts, whatever
   * the provider then does.
   */
  lemma ChargedBeforeForwarding(h: RequestHeaders, project: Project, periodStart: int, amounts: Amounts,
                                c: Collaborators, counters: map<CounterKey, Counter>, d: Delivered)
    requires Forwards(AdmitThenDeliver(h, project, periodStart, amounts, c, counters, d).calls)
    ensures var key := CounterKey(project.id, h.identity, periodStart);
            var check := Check(project, h.tier, CurrentOrZero(counters, key), amounts.tokens, amounts.requests, c.parse);
            var r := AdmitThenDeliver(h, project, periodStart, amounts, c, counters, d);
            && check.Allowed?
            && (project.sessionLimitsEnabled && h.session != "" ==> c.session.allowed)
            && r.outcome == d.outcome
            && r.counters == counters[key := Counter(CurrentOrZero(counters, key).requestsUsed + amounts.requests,
                                                      CurrentOrZero(counters, key).tokensUsed + amounts.tokens)]
  {
    var key := CounterKey(project.id, h.identity, periodStart);
    var a := Admission(project, h.identity, h.tier, h.session, periodStart, amounts, counters, c.session, c.parse);
    var r := AdmitThenDeliver(h, project, periodStart, amounts, c, counters, d);
  }

  /** A unary chat reply finalizes the usage exactly when its `total_tokens` is a positive number. */
  lemma UnaryFinalizesOnTotal(c: Collaborators, periodStart: int)
    ensures Finalizes(ChatDelivery(false, c, periodStart).calls)
            <==> c.reply.Replied? && UnaryTokens(c.reply.body).Ok? && UnaryTokens(c.reply.body).value.total > 0
  {
    var d := ChatDelivery(false, c, periodStart);
    if Finalizes(d.calls) {
      var i :| 0 <= i < |d.calls| && d.calls[i].UsageFinalized?;
      assert i != 0;
    }
    if c.reply.Replied? && UnaryTokens(c.reply.body).Ok? && UnaryTokens(c.reply.body).value.total > 0 {
      assert d.calls[1].UsageFinalized?;
    }
  }

  /**
   * A unary reply that is `null` throws when its `usage` is read: the catch answers
   * 500 with the TypeError's message, and nothing is finalized.
   */
  lemma NullReplyIsServerError(c: Collaborators, periodStart: int)
    requires c.reply == Replied(JNull)
    ensures ChatDelivery(false, c, periodStart)
            == Delivered(Respond(500, ErrorBody(JStr(NullUsageMessage), "proxy_error", "internal_error")),
                         [Forwarded(c.providerUrl)])
  {
  }

  /** An image reply always finalizes the usage, with no tokens; a failed call never does. */
  lemma ImageFinalizesWithoutTokens(c: Collaborators, periodStart: int)
    ensures ImageDelivery(c, periodStart).calls
            == if c.reply.Replied? then [Forwarded(ImagesUrl), UsageFinalized(periodStart, 0, 0)] else [Forwarded(ImagesUrl)]
  {
  }

  /** An admitted chat request adds one request and `max_tokens || 0` tokens to the identity's counter. */
  lemma ChatChargesItsAmounts(h: RequestHeaders, body: ChatRequest, project: Project, now: UtcNow, c: Collaborators,
                              counters: map<CounterKey, Counter>)
    requires MissingHeader(h).None? && SecurityScreen(project, body.hasMessages, c.security).blocked.None?
    requires var key := CounterKey(project.id, h.identity, PeriodStart(PeriodOf(project), now));
             var a := ChatAmounts(body.maxTokens);
             Check(project, h.tier, CurrentOrZero(counters, key), a.tokens, a.requests, c.parse).Allowed?
    ensures var key := CounterKey(project.id, h.identity, PeriodStart(PeriodOf(project), now));
            var before := CurrentOrZero(counters, key);
            Chat(h, body, project, now, c, counters).counters
            == counters[key := Counter(before.requestsUsed + 1,
                                       before.tokensUsed + (if body.maxTokens.Some? then body.maxTokens.value else 0))]
  {
  }

  /**
   * Image bodies are not validated, so a negative `n` that the limits let
   * through lowers the identity's request count instead of raising it.
   */
  lemma NegativeImageCountLowersUsage(h: RequestHeaders, n: int, project: Project, now: UtcNow, c: Collaborators,
                                      counters: map<CounterKey, Counter>)
    requires MissingHeader(h).None? && n < 0
    requires var key := CounterKey(project.id, h.identity, PeriodStart(PeriodOf(project), now));
             Check(project, h.tier, CurrentOrZero(counters, key), 0, n, c.parse).Allowed?
    ensures var key := CounterKey(project.id, h.identity, PeriodStart(PeriodOf(project), now));
            Images(h, Some(n), project, now, c, counters).counters[key].requestsUsed
            == CurrentOrZero(counters, key).requestsUsed + n
            < CurrentOrZero(counters, key).requestsUsed
  {
  }
}
