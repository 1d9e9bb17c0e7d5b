/**
 * Validation of the proxy's identifying headers (proxy/dto/proxy-headers.dto.ts):
 * the declared constraints of `ProxyHeadersDto`, and `validateProxyHeaders`, which
 * checks them one at a time and reports the first failure.
 */
module ProxyHeaders {

  import opened Wrappers
  import opened Strings

  /** The four headers; an absent header is `None`. */
  datatype Headers = Headers(projectKey: Option<string>, identity: Option<string>,
                             tier: Option<string>, session: Option<string>)

  /** `{ valid, error? }`. */
  datatype Validation = Validation(valid: bool, error: Option<string>)

  const MaxProjectKey: int := 64
  const MaxIdentity: int := 512
  const MaxTier: int := 64
  const MaxSession: int := 128

  predicate IsLowerHex(c: char) {
    '0' <= c <= '9' || 'a' <= c <= 'f'
  }

  /** `/^pk_[a-f0-9]{32}$/`. */
  predicate IsProjectKey(s: string) {
    |s| == 35 && s[..3] == "pk_" && forall i :: 3 <= i < 35 ==> IsLowerHex(s[i])
  }

  /** A header is truthy when present and non-empty. */
  predicate Truthy(h: Option<string>) {
    h.Some? && h.value != ""
  }

  /** No character above U+FFFF, so that `length` and the character count agree. */
  predicate Bmp(s: string) {
    forall k :: 0 <= k < |s| ==> s[k] as int < 0x1_0000
  }

  predicate BmpHeaders(h: Headers) {
    && (h.projectKey.None? || Bmp(h.projectKey.value))
    && (h.identity.None? || Bmp(h.identity.value))
    && (h.tier.None? || Bmp(h.tier.value))
    && (h.session.None? || Bmp(h.session.value))
  }

  /**
   * The constraints `ProxyHeadersDto` declares: a key of 35 to 64 characters in the
   * key format, an identity of 1 to 512, and tier and session, when present, of at
   * most 64 and 128. class-validator's `MinLength`/`MaxLength` count a surrogate
   * pair as one character, so these bounds are on characters.
   */
  predicate SatisfiesDto(h: Headers) {
    && h.projectKey.Some? && 35 <= |h.projectKey.value| <= MaxProjectKey && IsProjectKey(h.projectKey.value)
    && h.identity.Some? && 1 <= |h.identity.value| <= MaxIdentity
    && (h.tier.None? || |h.tier.value| <= MaxTier)
    && (h.session.None? || |h.session.value| <= MaxSession)
  }

  function Invalid(error: string): Validation {
    Validation(false, Some(error))
  }

  /**
   * `validateProxyHeaders`: the checks in order, the first failure reported. Its
   * `length` comparisons count UTF-16 code units.
   */
  function ValidateProxyHeaders(h: Headers): (r: Validation)
    ensures r.valid <==> r.error.None?
    ensures !Truthy(h.projectKey) ==> r == Invalid("Missing x-project-key header")
    ensures Truthy(h.projectKey) && Utf16Length(h.projectKey.value) > MaxProjectKey ==> r == Invalid("x-project-key header too long")
    ensures r.valid ==> IsProjectKey(h.projectKey.value) && Truthy(h.identity) && Utf16Length(h.identity.value) <= MaxIdentity
    ensures r.valid ==> (h.tier.None? || Utf16Length(h.tier.value) <= MaxTier)
                        && (h.session.None? || Utf16Length(h.session.value) <= MaxSession)
  {
    if !Truthy(h.projectKey) then Invalid("Missing x-project-key header")
    else if Utf16Length(h.projectKey.value) > MaxProjectKey then Invalid("x-project-key header too long")
    else if !IsProjectKey(h.projectKey.value) then Invalid("Invalid x-project-key format")
    else if !Truthy(h.identity) then Invalid("Missing x-identity header")
    else if Utf16Length(h.identity.value) > MaxIdentity then Invalid("x-identity header too long (max 512 chars)")
    else if Utf16Length(h.identity.value) < 1 then Invalid("x-identity header cannot be empty")
    else if Truthy(h.tier) && Utf16Length(h.tier.value) > MaxTier then Invalid("x-tier header too long (max 64 chars)")
    else if Truthy(h.session) && Utf16Length(h.session.value) > MaxSession then Invalid("x-session header too long (max 128 chars)")
    else Validation(true, None)
  }

  // ---------------------------------------------------------------------------
  // Properties.

  /**
   * Headers the function accepts satisfy the DTO's constraints; the converse holds
   * when no header has a character above U+FFFF, where `length` counts characters.
   */
  lemma ValidateAgreesWithDto(h: Headers)
    ensures ValidateProxyHeaders(h).valid ==> SatisfiesDto(h)
    ensures BmpHeaders(h) && SatisfiesDto(h) ==> ValidateProxyHeaders(h).valid
  {
    if BmpHeaders(h) {
      if h.projectKey.Some? { Utf16LengthIsCount(h.projectKey.value); }
      if h.identity.Some? { Utf16LengthIsCount(h.identity.value); }
      if h.tier.Some? { Utf16LengthIsCount(h.tier.value); }
      if h.session.Some? { Utf16LengthIsCount(h.session.value); }
    }
  }

  /**
   * An identity of 300 emoji satisfies the DTO (300 characters) but is rejected as
   * too long: its `length` is 600 code units.
   */
  lemma EmojiIdentityTooLong(key: string)
    requires IsProjectKey(key)
    ensures var h := Headers(Some(key), Some(Repeat('\U{1F600}', 300)), None, None);
            SatisfiesDto(h) && ValidateProxyHeaders(h) == Invalid("x-identity header too long (max 512 chars)")
  {
    Utf16LengthRepeatAstral('\U{1F600}', 300);
    Utf16LengthIsCount(key);
  }

  /** An accepted project key is exactly 35 characters long. */
  lemma AcceptedKeyLength(h: Headers)
    requires ValidateProxyHeaders(h).valid
    ensures |h.projectKey.value| == 35
  {
  }

  /** The "cannot be empty" branch is unreachable: an empty identity is reported as missing. */
  lemma EmptyIdentityIsMissing(h: Headers)
    ensures ValidateProxyHeaders(h).error != Some("x-identity header cannot be empty")
    ensures Truthy(h.projectKey) && Utf16Length(h.projectKey.value) <= MaxProjectKey && IsProjectKey(h.projectKey.value)
            && h.identity == Some("")
      ==> ValidateProxyHeaders(h) == Invalid("Missing x-identity header")
  {
  }

  /** A project-key failure is reported before any identity, tier or session failure. */
  lemma ProjectKeyCheckedFirst(h: Headers, other: Headers)
    requires other.projectKey == h.projectKey
    requires !(Truthy(h.projectKey) && Utf16Length(h.projectKey.value) <= MaxProjectKey && IsProjectKey(h.projectKey.value))
    ensures ValidateProxyHeaders(other) == ValidateProxyHeaders(h)
  {
  }
}
