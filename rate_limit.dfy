/**
 * The in-memory fixed-window throttle in front of the proxy endpoints
 * (common/proxy-rate-limit.middleware.ts): 120 requests a minute per client IP,
 * then 600 a minute per project key.
 *
 * Each of the two stores is a mutable map from key to window entry; the clock
 * reading `now` (milliseconds) is a parameter.
 */
module RateLimit {

  import opened Wrappers
  import opened Strings
  import opened Json

  const IpLimit: int := 120
  const IpWindowMs: int := 60 * 1000
  const ProjectLimit: int := 600
  const ProjectWindowMs: int := 60 * 1000
  const TooManyRequests: int := 429

  /** The calls counted in the window that started at `windowStart`. */
  datatype Entry = Entry(count: int, windowStart: int)

  /** What `checkLimit` reports. */
  datatype LimitCheck = LimitCheck(allowed: bool, remaining: int, resetAt: int)

  /** The report and the store after one call. */
  datatype Checked = Checked(check: LimitCheck, entries: map<string, Entry>)

  /** True when the entry's window is over at `now`. */
  predicate Expired(entry: Entry, windowMs: int, now: int) {
    now >= entry.windowStart + windowMs
  }

  /**
   * `checkLimit`: a missing or expired entry restarts the window at `now` with one
   * call; a full window denies without touching the entry; otherwise the count grows by one.
   */
  function Check(entries: map<string, Entry>, key: string, limit: int, windowMs: int, now: int): (r: Checked)
    ensures r.entries.Keys == entries.Keys + {key}
    ensures forall k :: k in entries && k != key ==> r.entries[k] == entries[k]
  {
    if key !in entries || Expired(entries[key], windowMs, now) then
      Checked(LimitCheck(true, limit - 1, now + windowMs), entries[key := Entry(1, now)])
    else
      var entry := entries[key];
      if entry.count >= limit then
        Checked(LimitCheck(false, 0, entry.windowStart + windowMs), entries)
      else
        var counted := entry.(count := entry.count + 1);
        Checked(LimitCheck(true, limit - counted.count, entry.windowStart + windowMs), entries[key := counted])
  }

  /** The entries whose window is still open at `now`. */
  function Unexpired(entries: map<string, Entry>, windowMs: int, now: int): (r: map<string, Entry>)
    ensures forall k :: k in r <==> k in entries && !Expired(entries[k], windowMs, now)
    ensures forall k :: k in r ==> r[k] == entries[k]
  {
    map k | k in entries && !Expired(entries[k], windowMs, now) :: entries[k]
  }

  /** Every stored count lies in [1, limit]. */
  ghost predicate CountsWithin(entries: map<string, Entry>, limit: int) {
    forall k :: k in entries ==> 1 <= entries[k].count <= limit
  }

  /** One of the two stores: a map the middleware updates in place. */
  class RateLimitStore {

    var entries: map<string, Entry>

    constructor()
      ensures entries == map[]
    {
      entries := map[];
    }

    /** `checkLimit` on this store. */
    method CheckLimit(key: string, limit: int, windowMs: int, now: int) returns (r: LimitCheck)
      modifies this
      ensures Checked(r, entries) == Check(old(entries), key, limit, windowMs, now)
    {
      if key !in entries || now >= entries[key].windowStart + windowMs {
        entries := entries[key := Entry(1, now)];
        return LimitCheck(true, limit - 1, now + windowMs);
      }
      var entry := entries[key];
      if entry.count >= limit {
        return LimitCheck(false, 0, entry.windowStart + windowMs);
      }
      entry := entry.(count := entry.count + 1);
      entries := entries[key := entry];
      r := LimitCheck(true, limit - entry.count, entry.windowStart + windowMs);
    }

    /** One loop of `cleanup`: every expired entry is deleted. */
    method Sweep(windowMs: int, now: int)
      modifies this
      ensures entries == Unexpired(old(entries), windowMs, now)
    {
      var keys := entries.Keys;
      ghost var original := entries;
      while keys != {}
        invariant keys <= original.Keys
        invariant forall k :: k in entries <==> k in original && (k in keys || !Expired(original[k], windowMs, now))
        invariant forall k :: k in entries ==> entries[k] == original[k]
        decreases keys
      {
        var key :| key in keys;
        if now >= entries[key].windowStart + windowMs {
          entries := entries - {key};
        }
        keys := keys - {key};
      }
    }
  }

  // ---------------------------------------------------------------------------
  // The middleware.

  /** A 429 answer: its headers and its JSON body. */
  datatype Rejection = Rejection(status: int, headers: seq<(string, string)>, body: Json)

  /** `use`: either a 429 answer, or the call goes on with the headers set so far. */
  datatype Admission = Rejected(rejection: Rejection) | Passed(headers: seq<(string, string)>)

  /** `Math.ceil(a / b)` for a positive divisor. */
  function CeilDiv(a: int, b: int): (r: int)
    requires b > 0
    ensures b * (r - 1) < a <= b * r
  {
    -((-a) / b)
  }

  /** The seconds until the window resets. */
  function RetryAfter(resetAt: int, now: int): int {
    CeilDiv(resetAt - now, 1000)
  }

  function Rejecting(limit: int, check: LimitCheck, now: int, message: string, code: string): Rejection {
    Rejection(TooManyRequests,
              [("X-RateLimit-Limit", IntToString(limit)),
               ("X-RateLimit-Remaining", "0"),
               ("X-RateLimit-Reset", IntToString(check.resetAt)),
               ("Retry-After", IntToString(RetryAfter(check.resetAt, now)))],
              JObj([("error", JObj([("message", JStr(message)),
                                    ("type", JStr("rate_limit_exceeded")),
                                    ("code", JStr(code)),
                                    ("retryAfter", JNum(RetryAfter(check.resetAt, now)))]))]))
  }

  const IpMessage: string := "Too many requests. Please slow down."
  const ProjectMessage: string := "Too many requests for this project. Please slow down."

  /** The answer of `use` and the two stores after it. */
  datatype Admitted = Admitted(admission: Admission, ipEntries: map<string, Entry>, projectEntries: map<string, Entry>)

  /**
   * `use`: the IP check first, and on its denial a 429 before the project store is
   * touched; then the project check only when a project key is given.
   */
  function Admit(ipEntries: map<string, Entry>, projectEntries: map<string, Entry>, clientIp: string,
                 projectKey: Option<string>, now: int): (r: Admitted)
    ensures r.ipEntries == Check(ipEntries, clientIp, IpLimit, IpWindowMs, now).entries
    ensures !Check(ipEntries, clientIp, IpLimit, IpWindowMs, now).check.allowed ==> r.projectEntries == projectEntries
    ensures projectKey.None? || projectKey == Some("") ==> r.projectEntries == projectEntries
    ensures r.admission.Rejected? ==> r.admission.rejection.status == TooManyRequests
  {
    var ip := Check(ipEntries, clientIp, IpLimit, IpWindowMs, now);
    if !ip.check.allowed then
      Admitted(Rejected(Rejecting(IpLimit, ip.check, now, IpMessage, "ip_rate_limit")), ip.entries, projectEntries)
    else if projectKey.Some? && projectKey.value != "" then
      var project := Check(projectEntries, projectKey.value, ProjectLimit, ProjectWindowMs, now);
      if !project.check.allowed then
        Admitted(Rejected(Rejecting(ProjectLimit, project.check, now, ProjectMessage, "project_rate_limit")),
                 ip.entries, project.entries)
      else
        Admitted(Passed([("X-RateLimit-Limit", IntToString(ProjectLimit)),
                         ("X-RateLimit-Remaining", IntToString(project.check.remaining)),
                         ("X-RateLimit-Reset", IntToString(project.check.resetAt))]),
                 ip.entries, project.entries)
    else
      Admitted(Passed([]), ip.entries, projectEntries)
  }

  /** The `x-forwarded-for` header: one string, or several. */
  datatype ForwardedFor = Single(value: string) | Multiple(values: seq<string>)

  /**
   * `getClientIp`: the trimmed first comma-separated element of x-forwarded-for,
   * else the socket address, else 'unknown'. An empty list of values is truthy,
   * and reading its first element's `split` is a TypeError.
   */
  function ClientIp(forwarded: Option<ForwardedFor>, remoteAddress: Option<string>): (r: Result<string, TypeError>)
    ensures r.Err? <==> forwarded == Some(Multiple([]))
    ensures r.Ok? ==> ',' !in r.value || (remoteAddress.Some? && r.value == remoteAddress.value)
    ensures forall h :: forwarded == Some(Single(h)) && h != "" ==> r == Ok(Trim(h[..FirstIndexOf(h, ',')]))
    ensures forwarded.Some? && forwarded.value.Multiple? && |forwarded.value.values| > 0 ==>
      var h := forwarded.value.values[0];
      r == Ok(Trim(h[..FirstIndexOf(h, ',')]))
    ensures forwarded.None? || forwarded == Some(Single("")) ==>
      r == Ok(if remoteAddress.Some? && remoteAddress.value != "" then remoteAddress.value else "unknown")
  {
    var first: Option<Result<string, TypeError>> :=
      match forwarded
      case Some(Single(s)) => if s != "" then Some(Ok(s)) else None
      case Some(Multiple(values)) => if |values| > 0 then Some(Ok(values[0])) else Some(Err(TypeError))
      case None => None;
    match first
    case Some(Ok(header)) =>
      var ip := Trim(Split(header, ',')[0]);
      TrimKeepsChars(Split(header, ',')[0]);
      Ok(ip)
    case Some(Err(e)) => Err(e)
    case None => Ok(if remoteAddress.Some? && remoteAddress.value != "" then remoteAddress.value else "unknown")
  }

  class ProxyRateLimitMiddleware {

    const ipLimits: RateLimitStore
    const projectLimits: RateLimitStore

    /** The two stores are distinct and every count stays within its limit. */
    ghost predicate Valid()
      reads this, ipLimits, projectLimits
    {
      ipLimits != projectLimits
      && CountsWithin(ipLimits.entries, IpLimit)
      && CountsWithin(projectLimits.entries, ProjectLimit)
    }

    constructor()
      ensures Valid()
      ensures ipLimits.entries == map[] && projectLimits.entries == map[]
      ensures fresh(ipLimits) && fresh(projectLimits)
    {
      ipLimits := new RateLimitStore();
      projectLimits := new RateLimitStore();
    }

    /** `use`: the IP check, then the project check when a key is given. */
    method Use(clientIp: string, projectKey: Option<string>, now: int) returns (r: Admission)
      requires Valid()
      modifies ipLimits, projectLimits
      ensures Valid()
      ensures Admitted(r, ipLimits.entries, projectLimits.entries)
           == Admit(old(ipLimits.entries), old(projectLimits.entries), clientIp, projectKey, now)
    {
      CheckPreservesBound(ipLimits.entries, clientIp, IpLimit, IpWindowMs, now);
      var ipCheck := ipLimits.CheckLimit(clientIp, IpLimit, IpWindowMs, now);
      if !ipCheck.allowed {
        return Rejected(Rejecting(IpLimit, ipCheck, now, IpMessage, "ip_rate_limit"));
      }
      if projectKey.Some? && projectKey.value != "" {
        CheckPreservesBound(projectLimits.entries, projectKey.value, ProjectLimit, ProjectWindowMs, now);
        var projectCheck := projectLimits.CheckLimit(projectKey.value, ProjectLimit, ProjectWindowMs, now);
        if !projectCheck.allowed {
          return Rejected(Rejecting(ProjectLimit, projectCheck, now, ProjectMessage, "project_rate_limit"));
        }
        return Passed([("X-RateLimit-Limit", IntToString(ProjectLimit)),
                       ("X-RateLimit-Remaining", IntToString(projectCheck.remaining)),
                       ("X-RateLimit-Reset", IntToString(projectCheck.resetAt))]);
      }
      r := Passed([]);
    }

    /** `cleanup`: both stores lose exactly their expired entries. */
    method Cleanup(now: int)
      requires Valid()
      modifies ipLimits, projectLimits
      ensures Valid()
      ensures ipLimits.entries == Unexpired(old(ipLimits.entries), IpWindowMs, now)
      ensures projectLimits.entries == Unexpired(old(projectLimits.entries), ProjectWindowMs, now)
    {
      ipLimits.Sweep(IpWindowMs, now);
      projectLimits.Sweep(ProjectWindowMs, now);
    }
  }

  // ---------------------------------------------------------------------------
  // Properties of the check.

  /** With a limit of at least 1, every stored count stays in [1, limit]. */
  lemma CheckPreservesBound(entries: map<string, Entry>, key: string, limit: int, windowMs: int, now: int)
    requires limit >= 1 && CountsWithin(entries, limit)
    ensures CountsWithin(Check(entries, key, limit, windowMs, now).entries, limit)
  {
  }

  /** A missing or expired entry starts a new window: allowed, limit − 1 remaining, reset one window from now. */
  lemma NewWindow(entries: map<string, Entry>, key: string, limit: int, windowMs: int, now: int)
    requires key !in entries || now >= entries[key].windowStart + windowMs
    ensures Check(entries, key, limit, windowMs, now)
         == Checked(LimitCheck(true, limit - 1, now + windowMs), entries[key := Entry(1, now)])
  {
  }

  /** An open window with room counts the call: allowed, the rest of the limit remaining, reset when the window ends. */
  lemma OpenWindowCounts(entries: map<string, Entry>, key: string, limit: int, windowMs: int, now: int)
    requires key in entries && now < entries[key].windowStart + windowMs && entries[key].count < limit
    ensures var e := entries[key];
            Check(entries, key, limit, windowMs, now)
            == Checked(LimitCheck(true, limit - (e.count + 1), e.windowStart + windowMs),
                       entries[key := Entry(e.count + 1, e.windowStart)])
  {
  }

  /** A full window denies, with nothing remaining, and leaves the store as it was. */
  lemma FullWindowDenies(entries: map<string, Entry>, key: string, limit: int, windowMs: int, now: int)
    requires key in entries && now < entries[key].windowStart + windowMs && entries[key].count >= limit
    ensures Check(entries, key, limit, windowMs, now)
         == Checked(LimitCheck(false, 0, entries[key].windowStart + windowMs), entries)
  {
  }

  /** The calls among `times` that `Check` allows, applied in turn to one key. */
  function AllowedCalls(entries: map<string, Entry>, key: string, limit: int, windowMs: int, times: seq<int>): nat
    decreases |times|
  {
    if |times| == 0 then 0
    else
      var c := Check(entries, key, limit, windowMs, times[0]);
      (if c.check.allowed then 1 else 0) + AllowedCalls(c.entries, key, limit, windowMs, times[1..])
  }

  /**
   * Within one window at most `limit` calls are allowed: from an entry that has
   * counted `count` calls, later calls before the window ends allow at most `limit − count` more.
   */
  lemma {:induction false} AtMostLimitPerWindow(entries: map<string, Entry>, key: string, limit: int, windowMs: int,
                                                times: seq<int>)
    requires key in entries && entries[key].count <= limit
    requires forall k :: 0 <= k < |times| ==> times[k] < entries[key].windowStart + windowMs
    ensures AllowedCalls(entries, key, limit, windowMs, times) <= limit - entries[key].count
    decreases |times|
  {
    if |times| > 0 {
      var c := Check(entries, key, limit, windowMs, times[0]);
      assert c.entries[key].windowStart == entries[key].windowStart;
      assert forall k :: 0 <= k < |times[1..]| ==> times[1..][k] == times[k + 1];
      AtMostLimitPerWindow(c.entries, key, limit, windowMs, times[1..]);
    }
  }

  // ---------------------------------------------------------------------------
  // Properties of the middleware.

  /** An IP denial answers 429 with code 'ip_rate_limit' and leaves the project store untouched. */
  lemma IpDenialComesFirst(ipEntries: map<string, Entry>, projectEntries: map<string, Entry>, clientIp: string,
                           projectKey: Option<string>, now: int)
    requires clientIp in ipEntries && now < ipEntries[clientIp].windowStart + IpWindowMs
    requires ipEntries[clientIp].count >= IpLimit
    ensures var r := Admit(ipEntries, projectEntries, clientIp, projectKey, now);
            && r.admission.Rejected?
            && Get(r.admission.rejection.body, "error").value.fields[2] == ("code", JStr("ip_rate_limit"))
            && r.projectEntries == projectEntries
            && r.ipEntries == ipEntries
  {
  }

  /** A denial's Retry-After is the whole seconds, rounded up, until the window resets. */
  lemma RetryAfterRoundsUp(resetAt: int, now: int)
    requires now < resetAt
    ensures 1 <= RetryAfter(resetAt, now)
    ensures 1000 * (RetryAfter(resetAt, now) - 1) < resetAt - now <= 1000 * RetryAfter(resetAt, now)
  {
  }

  /** Without a project key only the IP store changes, and an allowed call passes with no headers. */
  lemma NoProjectKeyPasses(ipEntries: map<string, Entry>, projectEntries: map<string, Entry>, clientIp: string, now: int)
    requires Check(ipEntries, clientIp, IpLimit, IpWindowMs, now).check.allowed
    ensures Admit(ipEntries, projectEntries, clientIp, None, now)
         == Admitted(Passed([]), Check(ipEntries, clientIp, IpLimit, IpWindowMs, now).entries, projectEntries)
  {
  }
}
