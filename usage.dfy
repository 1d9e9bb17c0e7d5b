/**
 * Usage accounting (usage/usage.service.ts): per (project, identity, period)
 * counters of requests and tokens, checked against the tier's or the project's
 * limits, with a templated response when a limit would be exceeded.
 *
 * The counter table is a map held by the service; `periodStart` is the start of
 * the period in milliseconds since the epoch. JSON.parse is an oracle `parse`.
 */
module Usage {

  import opened Wrappers
  import opened Strings
  import opened Json
  import opened Projects

  /** The lookup key of a counter, as the code queries it. */
  datatype CounterKey = CounterKey(projectId: string, identity: string, periodStart: int)

  datatype Counter = Counter(requestsUsed: int, tokensUsed: int)

  const DefaultLimitResponse: Json :=
    JObj([("error", JStr("limit_exceeded")),
          ("message", JStr("Free tier limit reached. Please upgrade to continue."))])

  // ---------------------------------------------------------------------------
  // Limits and the limit response.

  /** The limits a record with no `requestLimit`, `tokenLimit` or `customResponse` field reads as. */
  const NoLimits: TierConfig := TierConfig(None, None, None)

  /** The project's daily limits with no custom response: the fallback of the tier lookup. */
  function DailyLimits(project: Project): (limits: TierConfig)
    ensures limits.requestLimit == project.dailyRequestLimit && limits.tokenLimit == project.dailyTokenLimit
    ensures limits.customResponse.None?
  {
    TierConfig(project.dailyRequestLimit, project.dailyTokenLimit, None)
  }

  /** A non-empty tier name and a project with a `tiers` object: the condition under which the code reads `tiers[tier]`. */
  predicate TierQueried(project: Project, tier: Option<string>) {
    tier.Some? && tier.value != "" && project.tiers.Some?
  }

  /**
   * `getLimitsForTier`: `tiers[tier]` when the project has tiers and that read is
   * truthy, else the daily limits. The read finds the tier's own entry, else a
   * member inherited from `Object.prototype` (a truthy function or object with
   * none of the limit fields), else `undefined`.
   */
  function LimitsForTier(project: Project, tier: Option<string>): (limits: TierConfig)
    ensures TierQueried(project, tier) && Lookup(project.tiers.value, tier.value).Some?
      ==> limits == Lookup(project.tiers.value, tier.value).value
    ensures TierQueried(project, tier) && Lookup(project.tiers.value, tier.value).None?
            && InheritedName(tier.value)
      ==> limits == NoLimits
    ensures !(TierQueried(project, tier)
              && (Lookup(project.tiers.value, tier.value).Some? || InheritedName(tier.value)))
      ==> limits == DailyLimits(project)
  {
    if TierQueried(project, tier) && Lookup(project.tiers.value, tier.value).Some? then
      Lookup(project.tiers.value, tier.value).value
    else if TierQueried(project, tier) && InheritedName(tier.value) then
      NoLimits
    else
      DailyLimits(project)
  }

  /**
   * The lookup as evidently intended: only a tier the project defines as its own
   * entry replaces the daily limits.
   */
  function OwnLimitsForTier(project: Project, tier: Option<string>): (limits: TierConfig)
    ensures TierQueried(project, tier) && Lookup(project.tiers.value, tier.value).Some?
      ==> limits == Lookup(project.tiers.value, tier.value).value
    ensures !(TierQueried(project, tier) && Lookup(project.tiers.value, tier.value).Some?)
      ==> limits == DailyLimits(project)
  {
    if TierQueried(project, tier) && Lookup(project.tiers.value, tier.value).Some? then
      Lookup(project.tiers.value, tier.value).value
    else
      DailyLimits(project)
  }

  /** The project's configured response when it is set and parses, else the default one. */
  function LimitResponse(project: Project, parse: string -> Option<Json>): (r: Json)
    ensures project.limitExceededResponse != "" && parse(project.limitExceededResponse).Some?
      ==> r == parse(project.limitExceededResponse).value
    ensures project.limitExceededResponse == "" || parse(project.limitExceededResponse).None?
      ==> r == DefaultLimitResponse
  {
    if project.limitExceededResponse != "" then parse(project.limitExceededResponse).GetOr(DefaultLimitResponse)
    else DefaultLimitResponse
  }

  // ---------------------------------------------------------------------------
  // Template interpolation.

  /** The template variables, in the order the code lists them; `None` is `undefined`. */
  type Variables = seq<(string, Option<Json>)>

  /** `{{key}}`. */
  function Placeholder(key: string): (p: string)
    ensures |p| == |key| + 4 && p[0] == '{'
  {
    "{{" + key + "}}"
  }

  /** One step of the substitution: every `{{key}}` replaced by `String(value)`, when the value is defined. */
  function ReplaceVar(text: string, v: (string, Option<Json>)): string {
    if v.1.Some? && v.1.value != JNull then ReplaceAll(text, Placeholder(v.0), JsString(v.1.value)) else text
  }

  /** The substitutions of every variable, applied in order, each to the previous result. */
  function ReplaceVars(text: string, vars: Variables): string
    decreases |vars|
  {
    if |vars| == 0 then text else ReplaceVars(ReplaceVar(text, vars[0]), vars[1..])
  }

  /** `replaceTemplateVars`: the loop over the variables. */
  method ReplaceTemplateVars(text: string, vars: Variables) returns (result: string)
    ensures result == ReplaceVars(text, vars)
  {
    result := text;
    var i := 0;
    while i < |vars|
      invariant 0 <= i <= |vars|
      invariant ReplaceVars(result, vars[i..]) == ReplaceVars(text, vars)
    {
      var (key, value) := vars[i];
      assert vars[i..][1..] == vars[i + 1..];
      if value.Some? && value.value != JNull {
        result := ReplaceAll(result, Placeholder(key), JsString(value.value));
      }
      i := i + 1;
    }
  }

  /**
   * `interpolateVariables`: falsy values and non-object leaves are returned as they
   * are, strings are substituted, and objects are shallow-copied (arrays into
   * objects keyed by index) with their string fields substituted and their object
   * fields interpolated.
   */
  function Interpolate(response: Json, vars: Variables): (r: Json)
    ensures !Truthy(response) ==> r == response
    ensures response.JStr? && response.s != "" ==> r == JStr(ReplaceVars(response.s, vars))
    ensures response.JNum? || response.JBool? ==> r == response
    ensures response.JObj? ==>
      (r.JObj? && |r.fields| == |response.fields|
       && forall k :: 0 <= k < |r.fields| ==> r.fields[k] == (response.fields[k].0, InterpolateField(response.fields[k].1, vars)))
    ensures response.JArr? ==>
      (r.JObj? && |r.fields| == |response.items|
       && forall k :: 0 <= k < |r.fields| ==> r.fields[k] == (NatToString(k), InterpolateField(response.items[k], vars)))
    decreases response, 1, 0
  {
    if !Truthy(response) then response
    else match response
      case JStr(s) => JStr(ReplaceVars(s, vars))
      case JObj(fields) => JObj(InterpolateFields(fields, 0, vars))
      case JArr(items) => JObj(InterpolateItems(items, 0, vars))
      case _ => response
  }

  /** The key loop over an object's copy, from the `from`-th field on. */
  function InterpolateFields(fields: seq<(string, Json)>, from: nat, vars: Variables): (r: seq<(string, Json)>)
    requires from <= |fields|
    ensures |r| == |fields| - from
    ensures forall k :: from <= k < |fields| ==> r[k - from] == (fields[k].0, InterpolateField(fields[k].1, vars))
    decreases JObj(fields), 0, |fields| - from
  {
    if from == |fields| then []
    else [(fields[from].0, InterpolateField(fields[from].1, vars))] + InterpolateFields(fields, from + 1, vars)
  }

  /** The same loop over the index-keyed copy of an array. */
  function InterpolateItems(items: seq<Json>, from: nat, vars: Variables): (r: seq<(string, Json)>)
    requires from <= |items|
    ensures |r| == |items| - from
    ensures forall k :: from <= k < |items| ==> r[k - from] == (NatToString(k), InterpolateField(items[k], vars))
    decreases JArr(items), 0, |items| - from
  {
    if from == |items| then []
    else [(NatToString(from), InterpolateField(items[from], vars))] + InterpolateItems(items, from + 1, vars)
  }

  /** One field of the copy: strings are substituted, objects (and `null`) interpolated, other values kept. */
  function InterpolateField(value: Json, vars: Variables): (r: Json)
    ensures value.JStr? ==> r == JStr(ReplaceVars(value.s, vars))
    ensures value.JNum? || value.JBool? || value.JNull? ==> r == value
    decreases value, 2, 0
  {
    match value
    case JStr(s) => JStr(ReplaceVars(s, vars))
    case JObj(_) => Interpolate(value, vars)
    case JArr(_) => Interpolate(value, vars)
    case _ => value
  }

  // ---------------------------------------------------------------------------
  // The check.

  /** The decision of `checkAndUpdateUsage`: the counter's next values, or the interpolated response. */
  datatype Decision = Allowed(next: Counter) | Blocked(response: Json)

  /** True when `limit` is set, non-zero, and `next` goes beyond it. */
  predicate Exceeds(limit: Option<int>, next: int) {
    limit.Some? && limit.value != 0 && next > limit.value
  }

  /** The variables of a block response. */
  function BlockVariables(project: Project, tier: Option<string>, limit: int, usage: int, limitType: string): Variables {
    [("tier", if tier.Some? then Some(JStr(tier.value)) else None),
     ("limit", Some(JNum(limit))),
     ("usage", Some(JNum(usage))),
     ("limitType", Some(JStr(limitType))),
     ("period", Some(JStr(if project.limitPeriod != "" then project.limitPeriod else "daily")))]
  }

  function Check(project: Project, tier: Option<string>, usage: Counter, requestedTokens: int,
                 requestedRequests: int, parse: string -> Option<Json>): (d: Decision)
    ensures d.Allowed? ==> d.next == Counter(usage.requestsUsed + requestedRequests, usage.tokensUsed + requestedTokens)
  {
    var nextRequests := usage.requestsUsed + requestedRequests;
    var nextTokens := usage.tokensUsed + requestedTokens;
    var limits := LimitsForTier(project, tier);
    var checkRequests := project.limitType == "requests" || project.limitType == "both";
    var checkTokens := project.limitType == "tokens" || project.limitType == "both";
    var response := Or(limits.customResponse, LimitResponse(project, parse));
    if checkRequests && Exceeds(limits.requestLimit, nextRequests) then
      Blocked(Interpolate(response, BlockVariables(project, tier, limits.requestLimit.value, nextRequests, "requests")))
    else if checkTokens && Exceeds(limits.tokenLimit, nextTokens) then
      Blocked(Interpolate(response, BlockVariables(project, tier, limits.tokenLimit.value, nextTokens, "tokens")))
    else
      Allowed(Counter(nextRequests, nextTokens))
  }

  /** What `checkAndUpdateUsage` returns. */
  datatype CheckResult = CheckResult(allowed: bool, limitResponse: Option<Json>, usageCounter: Option<Counter>)

  /** The stored counter, or a fresh one at zero. */
  function CurrentOrZero(counters: map<CounterKey, Counter>, key: CounterKey): (c: Counter)
    ensures key !in counters ==> c == Counter(0, 0)
  {
    if key in counters then counters[key] else Counter(0, 0)
  }

  /** The counters of a project for one period. */
  function PeriodKeys(counters: map<CounterKey, Counter>, projectId: string, periodStart: int): (keys: set<CounterKey>)
    ensures keys <= counters.Keys
  {
    set key | key in counters && key.projectId == projectId && key.periodStart == periodStart
  }

  /** The sum of `f` over the counters named by `keys`. */
  ghost function Total(counters: map<CounterKey, Counter>, keys: set<CounterKey>, f: Counter -> int): int
    requires keys <= counters.Keys
    decreases keys
  {
    if keys == {} then 0
    else
      var key :| key in keys;
      f(counters[key]) + Total(counters, keys - {key}, f)
  }

  /** A sum over a set of counters can be taken out in any order. */
  lemma {:induction false} TotalRemove(counters: map<CounterKey, Counter>, keys: set<CounterKey>, f: Counter -> int,
                                       key: CounterKey)
    requires keys <= counters.Keys && key in keys
    ensures Total(counters, keys, f) == f(counters[key]) + Total(counters, keys - {key}, f)
    decreases keys
  {
    var first :| first in keys && Total(counters, keys, f) == f(counters[first]) + Total(counters, keys - {first}, f);
    if first != key {
      TotalRemove(counters, keys - {first}, f, key);
      TotalRemove(counters, keys - {key}, f, first);
      assert keys - {first} - {key} == keys - {key} - {first};
    }
  }

  function RequestsOf(c: Counter): int { c.requestsUsed }
  function TokensOf(c: Counter): int { c.tokensUsed }

  class UsageService {

    /** The usage counter table. */
    var counters: map<CounterKey, Counter>

    constructor()
      ensures counters == map[]
    {
      counters := map[];
    }

    /**
     * `checkAndUpdateUsage`: on allow the counter (created at zero when absent) is
     * stored with the new totals; on block nothing is stored.
     */
    method CheckAndUpdateUsage(project: Project, identity: string, tier: Option<string>, periodStart: int,
                               requestedTokens: int, requestedRequests: int, parse: string -> Option<Json>)
      returns (r: CheckResult)
      modifies this
      ensures var key := CounterKey(project.id, identity, periodStart);
              var d := Check(project, tier, CurrentOrZero(old(counters), key), requestedTokens, requestedRequests, parse);
              match d
              case Allowed(next) => r == CheckResult(true, None, Some(next)) && counters == old(counters)[key := next]
              case Blocked(response) => r == CheckResult(false, Some(response), None) && counters == old(counters)
    {
      var key := CounterKey(project.id, identity, periodStart);
      var usage := if key in counters then counters[key] else Counter(0, 0);
      var d := Check(project, tier, usage, requestedTokens, requestedRequests, parse);
      match d
      case Blocked(response) =>
        r := CheckResult(false, Some(response), None);
      case Allowed(next) =>
        counters := counters[key := next];
        r := CheckResult(true, None, Some(next));
    }

    /** `finalizeUsage`: adds the tokens to an existing counter, and does nothing when there is none. */
    method FinalizeUsage(project: Project, identity: string, periodStart: int, actualTokensUsed: int)
      modifies this
      ensures var key := CounterKey(project.id, identity, periodStart);
              if key in old(counters)
              then counters == old(counters)[key := old(counters)[key].(tokensUsed := old(counters)[key].tokensUsed + actualTokensUsed)]
              else counters == old(counters)
    {
      var key := CounterKey(project.id, identity, periodStart);
      if key in counters {
        var usage := counters[key];
        counters := counters[key := usage.(tokensUsed := usage.tokensUsed + actualTokensUsed)];
      }
    }

    /** `getUsage`: the stored counter, if any. */
    function GetUsage(projectId: string, identity: string, periodStart: int): (r: Option<Counter>)
      reads this
      ensures r.Some? <==> CounterKey(projectId, identity, periodStart) in counters
      ensures r.Some? ==> r.value == counters[CounterKey(projectId, identity, periodStart)]
    {
      var key := CounterKey(projectId, identity, periodStart);
      if key in counters then Some(counters[key]) else None
    }

    /** `getSummaryForProject`: the sums of requests and tokens over the project's counters for the period. */
    method GetSummaryForProject(projectId: string, periodStart: int) returns (totalRequests: int, totalTokens: int)
      ensures totalRequests == Total(counters, PeriodKeys(counters, projectId, periodStart), RequestsOf)
      ensures totalTokens == Total(counters, PeriodKeys(counters, projectId, periodStart), TokensOf)
    {
      var all := PeriodKeys(counters, projectId, periodStart);
      var remaining := all;
      totalRequests, totalTokens := 0, 0;
      while remaining != {}
        invariant remaining <= all
        invariant totalRequests + Total(counters, remaining, RequestsOf) == Total(counters, all, RequestsOf)
        invariant totalTokens + Total(counters, remaining, TokensOf) == Total(counters, all, TokensOf)
        decreases remaining
      {
        var key :| key in remaining;
        TotalRemove(counters, remaining, RequestsOf, key);
        TotalRemove(counters, remaining, TokensOf, key);
        totalRequests := totalRequests + counters[key].requestsUsed;
        totalTokens := totalTokens + counters[key].tokensUsed;
        remaining := remaining - {key};
      }
    }
  }

  // ---------------------------------------------------------------------------
  // Properties of the check.

  /**
   * A request is blocked exactly when a checked limit is set, non-zero and
   * exceeded: requests under 'requests' or 'both', tokens under 'tokens' or 'both'.
   */
  lemma BlockedIff(project: Project, tier: Option<string>, usage: Counter, requestedTokens: int,
                   requestedRequests: int, parse: string -> Option<Json>)
    ensures Check(project, tier, usage, requestedTokens, requestedRequests, parse).Blocked?
      <==> (((project.limitType == "requests" || project.limitType == "both")
             && Exceeds(LimitsForTier(project, tier).requestLimit, usage.requestsUsed + requestedRequests))
            || ((project.limitType == "tokens" || project.limitType == "both")
                && Exceeds(LimitsForTier(project, tier).tokenLimit, usage.tokensUsed + requestedTokens)))
  {
  }

  /** Reaching a limit exactly is allowed; a limit of 0 never blocks. */
  lemma ReachingLimitIsAllowed(project: Project, tier: Option<string>, usage: Counter, requestedTokens: int,
                               requestedRequests: int, parse: string -> Option<Json>)
    requires var limits := LimitsForTier(project, tier);
             (limits.requestLimit.None? || limits.requestLimit.value == 0
              || usage.requestsUsed + requestedRequests <= limits.requestLimit.value)
             && (limits.tokenLimit.None? || limits.tokenLimit.value == 0
              || usage.tokensUsed + requestedTokens <= limits.tokenLimit.value)
    ensures Check(project, tier, usage, requestedTokens, requestedRequests, parse)
      == Allowed(Counter(usage.requestsUsed + requestedRequests, usage.tokensUsed + requestedTokens))
  {
  }

  /** A limit type other than 'requests', 'tokens' or 'both' checks nothing. */
  lemma UnknownLimitTypeAllows(project: Project, tier: Option<string>, usage: Counter, requestedTokens: int,
                               requestedRequests: int, parse: string -> Option<Json>)
    requires project.limitType != "requests" && project.limitType != "tokens" && project.limitType != "both"
    ensures Check(project, tier, usage, requestedTokens, requestedRequests, parse).Allowed?
  {
  }

  /**
   * When both limits are exceeded the request limit is reported: the response is
   * interpolated with limitType 'requests', the request limit and the request count.
   */
  lemma RequestLimitWins(project: Project, tier: Option<string>, usage: Counter, requestedTokens: int,
                         requestedRequests: int, parse: string -> Option<Json>)
    requires project.limitType == "both"
    requires Exceeds(LimitsForTier(project, tier).requestLimit, usage.requestsUsed + requestedRequests)
    ensures var limits := LimitsForTier(project, tier);
            Check(project, tier, usage, requestedTokens, requestedRequests, parse)
              == Blocked(Interpolate(Or(limits.customResponse, LimitResponse(project, parse)),
                                     BlockVariables(project, tier, limits.requestLimit.value,
                                                    usage.requestsUsed + requestedRequests, "requests")))
  {
    var limits := LimitsForTier(project, tier);
    var nextRequests := usage.requestsUsed + requestedRequests;
    assert project.limitType == "requests" || project.limitType == "both";
    assert Exceeds(limits.requestLimit, nextRequests);
  }

  /** A blocked request gets the tier's response, or else the project's, interpolated. */
  lemma BlockedResponse(project: Project, tier: Option<string>, usage: Counter, requestedTokens: int,
                        requestedRequests: int, parse: string -> Option<Json>)
    requires Check(project, tier, usage, requestedTokens, requestedRequests, parse).Blocked?
    ensures exists vars: Variables ::
              Check(project, tier, usage, requestedTokens, requestedRequests, parse)
                == Blocked(Interpolate(Or(LimitsForTier(project, tier).customResponse, LimitResponse(project, parse)), vars))
  {
    var limits := LimitsForTier(project, tier);
    var nextRequests := usage.requestsUsed + requestedRequests;
    var nextTokens := usage.tokensUsed + requestedTokens;
    if (project.limitType == "requests" || project.limitType == "both") && Exceeds(limits.requestLimit, nextRequests) {
      var vars := BlockVariables(project, tier, limits.requestLimit.value, nextRequests, "requests");
      assert Check(project, tier, usage, requestedTokens, requestedRequests, parse)
        == Blocked(Interpolate(Or(limits.customResponse, LimitResponse(project, parse)), vars));
    } else {
      var vars := BlockVariables(project, tier, limits.tokenLimit.value, nextTokens, "tokens");
      assert Check(project, tier, usage, requestedTokens, requestedRequests, parse)
        == Blocked(Interpolate(Or(limits.customResponse, LimitResponse(project, parse)), vars));
    }
  }

  /** A tier's truthy custom response is preferred over the project's response. */
  lemma CustomResponsePreferred(project: Project, tier: string, config: TierConfig, usage: Counter,
                                requestedTokens: int, requestedRequests: int, parse: string -> Option<Json>)
    requires tier != "" && project.tiers.Some? && Lookup(project.tiers.value, tier) == Some(config)
    requires IsTruthy(config.customResponse)
    requires Check(project, Some(tier), usage, requestedTokens, requestedRequests, parse).Blocked?
    ensures exists vars: Variables :: Check(project, Some(tier), usage, requestedTokens, requestedRequests, parse)
                                       == Blocked(Interpolate(config.customResponse.value, vars))
  {
    assert LimitsForTier(project, Some(tier)) == config;
    assert Or(config.customResponse, LimitResponse(project, parse)) == config.customResponse.value;
    BlockedResponse(project, Some(tier), usage, requestedTokens, requestedRequests, parse);
  }

  /**
   * Without a tier entry the project's daily limits apply and no custom response
   * is used, unless the name is one an object inherits from `Object.prototype`.
   */
  lemma UnknownTierUsesProjectLimits(project: Project, tier: string)
    requires project.tiers.None? || (Lookup(project.tiers.value, tier).None? && !InheritedName(tier))
    ensures LimitsForTier(project, Some(tier)) == DailyLimits(project)
  {
  }

  /**
   * A tier name inherited from `Object.prototype` (`x-tier: constructor`, say) on a
   * project with tiers but no own tier of that name reads a record without limits,
   * so nothing is checked: every request is allowed, whatever the counters and the
   * project's daily limits.
   */
  lemma InheritedTierChecksNothing(project: Project, tier: string, usage: Counter, requestedTokens: int,
                                   requestedRequests: int, parse: string -> Option<Json>)
    requires InheritedName(tier) && project.tiers.Some? && Lookup(project.tiers.value, tier).None?
    ensures LimitsForTier(project, Some(tier)) == NoLimits
    ensures Check(project, Some(tier), usage, requestedTokens, requestedRequests, parse)
      == Allowed(Counter(usage.requestsUsed + requestedRequests, usage.tokensUsed + requestedTokens))
  {
  }

  /** `x-tier: constructor` gets past a daily limit of one request that the project has already used. */
  lemma ConstructorTierBypass(project: Project, parse: string -> Option<Json>)
    requires project.tiers == Some([]) && project.limitType == "requests" && project.dailyRequestLimit == Some(1)
    ensures OwnLimitsForTier(project, Some("constructor")) == DailyLimits(project)
    ensures Check(project, None, Counter(1, 0), 0, 1, parse).Blocked?
    ensures Check(project, Some("constructor"), Counter(1, 0), 0, 1, parse) == Allowed(Counter(2, 0))
  {
    InheritedTierChecksNothing(project, "constructor", Counter(1, 0), 0, 1, parse);
  }

  /** The two lookups differ only on inherited names: everywhere else the code does what was intended. */
  lemma LookupsAgreeOnOwnNames(project: Project, tier: Option<string>)
    requires tier.None? || !InheritedName(tier.value)
    ensures LimitsForTier(project, tier) == OwnLimitsForTier(project, tier)
  {
  }

  // ---------------------------------------------------------------------------
  // Properties of the interpolation.

  /** A text without '{' has no placeholder and comes back unchanged. */
  lemma {:induction false} NoBraceUnchanged(text: string, vars: Variables)
    requires '{' !in text
    ensures ReplaceVars(text, vars) == text
    decreases |vars|
  {
    if |vars| > 0 {
      var v := vars[0];
      if v.1.Some? && v.1.value != JNull {
        ReplaceAllSkip(text, "", Placeholder(v.0), JsString(v.1.value));
        assert text + "" == text;
        assert ReplaceAll("", Placeholder(v.0), JsString(v.1.value)) == "";
      }
      NoBraceUnchanged(text, vars[1..]);
    }
  }

  /** Variables that are `undefined` or `null` leave the text as it is. */
  lemma {:induction false} UndefinedVariablesSkipped(text: string, vars: Variables)
    requires forall k :: 0 <= k < |vars| ==> vars[k].1.None? || vars[k].1 == Some(JNull)
    ensures ReplaceVars(text, vars) == text
    decreases |vars|
  {
    if |vars| > 0 {
      UndefinedVariablesSkipped(text, vars[1..]);
    }
  }

  /** The placeholder of another key is copied by a substitution, and the scan goes on after it. */
  lemma OtherPlaceholderCopied(other: string, y: string, key: string, rep: string)
    requires |other| > 0 && |key| > 0 && other[0] != key[0]
    requires '{' !in other && '}' !in other
    ensures ReplaceAll(Placeholder(other) + y, Placeholder(key), rep) == Placeholder(other) + ReplaceAll(y, Placeholder(key), rep)
  {
    var pat := Placeholder(key);
    var rest := other + "}}";
    PlaceholderSplit(other, key, y);
    assert ([pat[1]] + (rest + y))[1] == other[0];
    assert ([pat[0]] + ([pat[1]] + (rest + y)))[2] == other[0];
    ReplaceAllStep(pat[0], [pat[1]] + (rest + y), pat, rep);
    ReplaceAllStep(pat[1], rest + y, pat, rep);
    ReplaceAllSkip(rest, y, pat, rep);
    PlaceholderSplit(other, key, ReplaceAll(y, pat, rep));
  }

  /** A placeholder followed by `z`, taken apart character by character at its two opening braces. */
  lemma PlaceholderSplit(other: string, key: string, z: string)
    ensures Placeholder(other) + z == [Placeholder(key)[0]] + ([Placeholder(key)[1]] + ((other + "}}") + z))
  {
  }

  lemma NoBraceInNumber(n: int)
    ensures '{' !in IntToString(n)
  {
    if n < 0 {
      assert IntToString(n) == "-" + NatToString(-n);
    }
  }

  /** Text without '{' followed by another key's placeholder is copied by a substitution. */
  lemma TextThenOtherCopied(text: string, other: string, y: string, key: string, rep: string)
    requires |other| > 0 && |key| > 0 && other[0] != key[0]
    requires '{' !in other && '}' !in other && '{' !in text
    ensures ReplaceAll(text + (Placeholder(other) + y), Placeholder(key), rep)
         == text + (Placeholder(other) + ReplaceAll(y, Placeholder(key), rep))
  {
    ReplaceAllSkip(text, Placeholder(other) + y, Placeholder(key), rep);
    OtherPlaceholderCopied(other, y, key, rep);
  }

  /** Text without '{' followed by the placeholder itself. */
  lemma TextThenOwnFilled(text: string, y: string, key: string, rep: string)
    requires '{' !in text
    ensures ReplaceAll(text + (Placeholder(key) + y), Placeholder(key), rep)
         == text + (rep + ReplaceAll(y, Placeholder(key), rep))
  {
    ReplaceAllSkip(text, Placeholder(key) + y, Placeholder(key), rep);
    ReplaceAllHead(y, Placeholder(key), rep);
  }

  /** Text without '{' is copied. */
  lemma NoBraceCopied(text: string, key: string, rep: string)
    requires '{' !in text
    ensures ReplaceAll(text, Placeholder(key), rep) == text
  {
    ReplaceAllSkip(text, "", Placeholder(key), rep);
    assert text + "" == text;
  }

  lemma TierFilled(a: string, b: string, c: string, tier: string, pl: string, pu: string, pt: string)
    requires '{' !in a && '{' !in b && '{' !in c && '{' !in tier
    requires pl == Placeholder("limit") && pu == Placeholder("usage") && pt == Placeholder("tier")
    ensures ReplaceAll(a + (pl + (b + (pu + (c + pt)))), pt, tier) == a + (pl + (b + (pu + (c + tier))))
  {
    NoBraceCopied("", "tier", tier);
    TextThenOwnFilled(c, "", "tier", tier);
    assert pt + "" == pt;
    assert tier + "" == tier;
    TextThenOtherCopied(b, "usage", c + pt, "tier", tier);
    TextThenOtherCopied(a, "limit", b + (pu + (c + pt)), "tier", tier);
  }

  lemma LimitFilled(a: string, b: string, c: string, tier: string, limit: string, pl: string, pu: string)
    requires '{' !in a && '{' !in b && '{' !in c && '{' !in tier
    requires pl == Placeholder("limit") && pu == Placeholder("usage")
    ensures ReplaceAll(a + (pl + (b + (pu + (c + tier)))), pl, limit) == a + (limit + (b + (pu + (c + tier))))
  {
    NoBraceCopied(c + tier, "limit", limit);
    TextThenOtherCopied(b, "usage", c + tier, "limit", limit);
    TextThenOwnFilled(a, b + (pu + (c + tier)), "limit", limit);
  }

  lemma UsageFilled(a: string, b: string, c: string, tier: string, limit: string, usage: string, pu: string)
    requires '{' !in a && '{' !in b && '{' !in c && '{' !in tier && '{' !in limit
    requires pu == Placeholder("usage")
    ensures ReplaceAll(a + (limit + (b + (pu + (c + tier)))), pu, usage) == a + (limit + (b + (usage + (c + tier))))
  {
    var prefix := a + (limit + b);
    assert a + (limit + (b + (pu + (c + tier)))) == prefix + (pu + (c + tier));
    NoBraceCopied(c + tier, "usage", usage);
    TextThenOwnFilled(prefix, c + tier, "usage", usage);
    assert prefix + (usage + (c + tier)) == a + (limit + (b + (usage + (c + tier))));
  }

  /** A template "a{{limit}}b{{usage}}c{{tier}}" whose text parts hold no '{'. */
  function Template(a: string, b: string, c: string): string {
    a + (Placeholder("limit") + (b + (Placeholder("usage") + (c + Placeholder("tier")))))
  }

  /**
   * Such a template is filled with the limit, the usage and the tier, in place,
   * and nothing else changes: "Limit {{limit}} hit at {{usage}} for tier {{tier}}"
   * with limit 100, usage 101 and tier 'free' reads "Limit 100 hit at 101 for tier free".
   */
  lemma {:induction false} TemplateFilled(project: Project, a: string, b: string, c: string, tier: string,
                                          limit: int, usage: int, limitType: string)
    requires '{' !in a && '{' !in b && '{' !in c && '{' !in tier
    ensures ReplaceVars(Template(a, b, c), BlockVariables(project, Some(tier), limit, usage, limitType))
         == a + (IntToString(limit) + (b + (IntToString(usage) + (c + tier))))
  {
    var vars := BlockVariables(project, Some(tier), limit, usage, limitType);
    var pl, pu, pt := Placeholder("limit"), Placeholder("usage"), Placeholder("tier");
    var l, u := IntToString(limit), IntToString(usage);
    NoBraceInNumber(limit);
    NoBraceInNumber(usage);
    TierFilled(a, b, c, tier, pl, pu, pt);
    var t1 := a + (pl + (b + (pu + (c + tier))));
    assert ReplaceVar(Template(a, b, c), vars[0]) == t1;
    LimitFilled(a, b, c, tier, l, pl, pu);
    var t2 := a + (l + (b + (pu + (c + tier))));
    assert ReplaceVar(t1, vars[1]) == t2;
    UsageFilled(a, b, c, tier, l, u, pu);
    var filled := a + (l + (b + (u + (c + tier))));
    assert ReplaceVar(t2, vars[2]) == filled;
    NoBraceUnchanged(filled, vars[3..]);
    assert vars[1..][1..] == vars[2..] && vars[2..][1..] == vars[3..];
    assert vars[1..][0] == vars[1] && vars[2..][0] == vars[2];
    assert ReplaceVars(t2, vars[2..]) == ReplaceVars(filled, vars[3..]);
    assert ReplaceVars(t1, vars[1..]) == ReplaceVars(t2, vars[2..]);
  }
}
