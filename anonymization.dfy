/**
 * PII masking before a request reaches a provider
 * (anonymization/anonymization.service.ts): each enabled pattern in a fixed order,
 * then the custom patterns, masks its matches in the text the previous pass produced.
 *
 * Regular-expression matching is an oracle `exec(pattern, text)` that returns the
 * matches in order, non-empty and non-overlapping; `compiles(source)` says whether
 * `new RegExp(source, 'g')` succeeds for a custom pattern.
 */
module Anonymization {

  import opened Wrappers
  import opened Strings

  // ---------------------------------------------------------------------------
  // Configuration.

  datatype CustomPattern = CustomPattern(name: string, pattern: string, replacement: Option<string>)

  /** The caller's partial configuration: an absent key is `None`. */
  datatype PartialConfig = PartialConfig(
    enabled: Option<bool>,
    detectEmail: Option<bool>,
    detectPhone: Option<bool>,
    detectSSN: Option<bool>,
    detectCreditCard: Option<bool>,
    detectName: Option<bool>,
    detectAddress: Option<bool>,
    detectIpAddress: Option<bool>,
    customPatterns: Option<seq<CustomPattern>>,
    maskingStyle: Option<string>)

  /** `{ ...DEFAULT_CONFIG, ...config }`. */
  datatype Config = Config(
    enabled: bool,
    detectEmail: bool,
    detectPhone: bool,
    detectSSN: bool,
    detectCreditCard: bool,
    detectName: bool,
    detectAddress: bool,
    detectIpAddress: bool,
    customPatterns: Option<seq<CustomPattern>>,
    maskingStyle: string)

  const DefaultConfig: Config :=
    Config(true, true, true, true, true, false, false, true, None, "placeholder")

  /** The merged value of one key: the caller's when given, else the default. */
  predicate Overrides<T(==)>(given: Option<T>, default: T, merged: T) {
    (given.Some? ==> merged == given.value) && (given.None? ==> merged == default)
  }

  /** Every key the caller gives overrides the default. */
  function Merge(c: PartialConfig): (r: Config)
    ensures Overrides(c.enabled, DefaultConfig.enabled, r.enabled)
    ensures Overrides(c.detectEmail, DefaultConfig.detectEmail, r.detectEmail)
    ensures Overrides(c.detectPhone, DefaultConfig.detectPhone, r.detectPhone)
    ensures Overrides(c.detectSSN, DefaultConfig.detectSSN, r.detectSSN)
    ensures Overrides(c.detectCreditCard, DefaultConfig.detectCreditCard, r.detectCreditCard)
    ensures Overrides(c.detectName, DefaultConfig.detectName, r.detectName)
    ensures Overrides(c.detectAddress, DefaultConfig.detectAddress, r.detectAddress)
    ensures Overrides(c.detectIpAddress, DefaultConfig.detectIpAddress, r.detectIpAddress)
    ensures c.customPatterns.Some? ==> r.customPatterns == c.customPatterns
    ensures c.customPatterns.None? ==> r.customPatterns.None?
    ensures Overrides(c.maskingStyle, "placeholder", r.maskingStyle)
    ensures c == PartialConfig(None, None, None, None, None, None, None, None, None, None) ==> r == DefaultConfig
  {
    Config(c.enabled.GetOr(DefaultConfig.enabled),
           c.detectEmail.GetOr(DefaultConfig.detectEmail),
           c.detectPhone.GetOr(DefaultConfig.detectPhone),
           c.detectSSN.GetOr(DefaultConfig.detectSSN),
           c.detectCreditCard.GetOr(DefaultConfig.detectCreditCard),
           c.detectName.GetOr(DefaultConfig.detectName),
           c.detectAddress.GetOr(DefaultConfig.detectAddress),
           c.detectIpAddress.GetOr(DefaultConfig.detectIpAddress),
           if c.customPatterns.Some? then c.customPatterns else DefaultConfig.customPatterns,
           c.maskingStyle.GetOr(DefaultConfig.maskingStyle))
  }

  // ---------------------------------------------------------------------------
  // Matches and replacements.

  /** A built-in pattern by its key, or a custom pattern's source. */
  datatype Pattern = Builtin(name: string) | Custom(source: string)

  /** One `regex.exec` result: where it starts and what it matched. */
  datatype Match = Match(index: nat, text: string)

  function End(m: Match): nat {
    m.index + |m.text|
  }

  /** Matches that are non-empty, inside `text`, in order and not overlapping. */
  predicate Ordered(text: string, ms: seq<Match>) {
    && (forall k :: 0 <= k < |ms| ==> |ms[k].text| > 0 && End(ms[k]) <= |text|)
    && (forall j, k :: 0 <= j < k < |ms| ==> End(ms[j]) <= ms[k].index)
  }

  /** The matches a global regex yields on `text`: ordered, and each found at its index. */
  predicate WellFormed(text: string, ms: seq<Match>) {
    Ordered(text, ms) && forall k :: 0 <= k < |ms| ==> text[ms[k].index..End(ms[k])] == ms[k].text
  }

  /** The oracle never yields anything but well-formed matches. */
  ghost predicate Sound(exec: (Pattern, string) -> seq<Match>) {
    forall p, t :: WellFormed(t, exec(p, t))
  }

  /** One recorded replacement, in the coordinates of the pass's input. */
  datatype Replacement = Replacement(kind: string, original: string, replacement: string, start: int, end: int)

  /** The `placeholders` table. */
  const Placeholders: seq<(string, string)> := [
    ("email", "[EMAIL_REDACTED]"),
    ("phone", "[PHONE_REDACTED]"),
    ("ssn", "[SSN_REDACTED]"),
    ("creditCard", "[CARD_REDACTED]"),
    ("ipAddress", "[IP_REDACTED]"),
    ("dateOfBirth", "[DOB_REDACTED]"),
    ("name", "[NAME_REDACTED]"),
    ("address", "[ADDRESS_REDACTED]"),
    ("custom", "[PII_REDACTED]")]

  /** The first entry of `table` under `key`: found exactly when the key occurs. */
  function Find(table: seq<(string, string)>, key: string): (r: Option<string>)
    ensures r.None? <==> forall k :: 0 <= k < |table| ==> table[k].0 != key
    ensures r.Some? ==> exists k :: 0 <= k < |table| && table[k] == (key, r.value)
                                    && forall j :: 0 <= j < k ==> table[j].0 != key
    decreases |table|
  {
    if |table| == 0 then None
    else if table[0].0 == key then Some(table[0].1)
    else
      var r := Find(table[1..], key);
      assert forall k :: 0 < k < |table| ==> table[1..][k - 1] == table[k];
      r
  }

  /** `placeholders[type]` for the table's own keys: the placeholder of a built-in type or 'custom'. */
  function PlaceholderFor(kind: string): (r: Option<string>)
    ensures r.Some? <==> exists k :: 0 <= k < |Placeholders| && Placeholders[k].0 == kind
    ensures r.Some? ==> (kind, r.value) in Placeholders
  {
    Find(Placeholders, kind)
  }

  /** `customReplacement || placeholders[type] || '[PII_REDACTED]'`. */
  function PlaceholderReplacement(kind: string, custom: Option<string>): (r: string)
    ensures custom.Some? && custom.value != "" ==> r == custom.value
    ensures (custom.None? || custom.value == "") && PlaceholderFor(kind).Some? ==> r == PlaceholderFor(kind).value
    ensures (custom.None? || custom.value == "") && PlaceholderFor(kind).None? ==> r == "[PII_REDACTED]"
    ensures r != ""
  {
    if custom.Some? && custom.value != "" then custom.value
    else match PlaceholderFor(kind)
      case Some(p) => PlaceholdersNonEmpty(kind); p
      case None => "[PII_REDACTED]"
  }

  /** Every placeholder of the table is non-empty, so `||` never falls through it. */
  lemma PlaceholdersNonEmpty(kind: string)
    ensures PlaceholderFor(kind).Some? ==> PlaceholderFor(kind).value != ""
  {
    assert forall k :: 0 <= k < |Placeholders| ==> |Placeholders[k].1| == 0 ==> false;
  }

  /**
   * The replacement of one match under a masking style: 'redact' gives one '*' per
   * UTF-16 code unit of the match, so the `length` is kept; 'hash' the upper-cased
   * type and the hash token in brackets; any other style the placeholder.
   */
  function ReplacementFor(kind: string, style: string, custom: Option<string>, original: string): (r: string)
    ensures style == "redact" ==> Utf16Length(r) == |r| == Utf16Length(original) && forall k :: 0 <= k < |r| ==> r[k] == '*'
    ensures style == "hash" ==> r == "[" + Upper(kind) + "_" + HashToken(original) + "]"
    ensures style != "redact" && style != "hash" ==> r == PlaceholderReplacement(kind, custom)
  {
    if style == "redact" then
      Utf16LengthRepeat('*', Utf16Length(original));
      Repeat('*', Utf16Length(original))
    else if style == "hash" then "[" + Upper(kind) + "_" + HashToken(original) + "]"
    else PlaceholderReplacement(kind, custom)
  }

  /** The `switch` on the masking style, as a function of the matched text. */
  function Replacer(kind: string, style: string, custom: Option<string>): string -> string {
    original => ReplacementFor(kind, style, custom, original)
  }

  // ---------------------------------------------------------------------------
  // `maskPattern` specified: the text rebuilt from the gaps between the matches
  // and their replacements `rep(match)`.

  /** Where the text after match `i − 1` starts (0 before the first match). */
  function Before(ms: seq<Match>, i: int): nat
    requires 0 <= i <= |ms|
  {
    if i == 0 then 0 else End(ms[i - 1])
  }

  /** The output up to the end of the `i`-th replacement. */
  function Prefix(text: string, ms: seq<Match>, rep: string -> string, i: int): string
    requires Ordered(text, ms) && 0 <= i <= |ms|
    decreases i
  {
    if i == 0 then ""
    else Prefix(text, ms, rep, i - 1) + text[Before(ms, i - 1)..ms[i - 1].index] + rep(ms[i - 1].text)
  }

  /** The text with every match replaced. */
  function Masked(text: string, ms: seq<Match>, rep: string -> string): string
    requires Ordered(text, ms)
  {
    Prefix(text, ms, rep, |ms|) + text[Before(ms, |ms|)..]
  }

  function Record(kind: string, rep: string -> string, m: Match): Replacement {
    Replacement(kind, m.text, rep(m.text), m.index, End(m))
  }

  /** The replacement list, one record per match in order. */
  function Records(ms: seq<Match>, kind: string, rep: string -> string): (r: seq<Replacement>)
    ensures |r| == |ms|
    decreases |ms|
  {
    if |ms| == 0 then []
    else Records(ms[..|ms| - 1], kind, rep) + [Record(kind, rep, ms[|ms| - 1])]
  }

  /** `maskPattern`. */
  method MaskPattern(text: string, ms: seq<Match>, kind: string, style: string, custom: Option<string>)
    returns (result: string, replacements: seq<Replacement>)
    requires Ordered(text, ms)
    ensures result == Masked(text, ms, Replacer(kind, style, custom))
    ensures replacements == Records(ms, kind, Replacer(kind, style, custom))
  {
    result, replacements := Splice(text, ms, kind, Replacer(kind, style, custom));
  }

  /** The loop of `maskPattern`: splice each replacement in at the match's position shifted by `offset`. */
  method Splice(text: string, ms: seq<Match>, kind: string, rep: string -> string)
    returns (result: string, replacements: seq<Replacement>)
    requires Ordered(text, ms)
    ensures result == Masked(text, ms, rep)
    ensures replacements == Records(ms, kind, rep)
  {
    replacements := [];
    var offset := 0;
    result := text;
    var i := 0;
    while i < |ms|
      invariant SplicedUpTo(text, ms, kind, rep, i, result, offset, replacements)
    {
      var original := ms[i].text;
      var start := ms[i].index;
      var end := start + |original|;
      var replacement := rep(original);
      ghost var (result0, offset0, replacements0) := (result, offset, replacements);
      SpliceInRange(text, ms, kind, rep, i, result, offset, replacements);
      replacements := replacements + [Replacement(kind, original, replacement, start, end)];
      var adjustedStart := start + offset;
      result := result[..adjustedStart] + replacement + result[adjustedStart + |original|..];
      offset := offset + |replacement| - |original|;
      SpliceNext(text, ms, kind, rep, i, result0, offset0, replacements0, result, offset, replacements);
      i := i + 1;
    }
    SplicedAll(text, ms, kind, rep, result, offset, replacements);
  }

  /** The state of the `maskPattern` loop after `i` matches. */
  ghost predicate SplicedUpTo(text: string, ms: seq<Match>, kind: string, rep: string -> string, i: int,
                              result: string, offset: int, replacements: seq<Replacement>)
  {
    && Ordered(text, ms) && 0 <= i <= |ms|
    && result == Prefix(text, ms, rep, i) + text[Before(ms, i)..]
    && offset == |Prefix(text, ms, rep, i)| - Before(ms, i)
    && replacements == Records(ms[..i], kind, rep)
  }

  /** After the last match the loop's output is the masked text and its records. */
  lemma SplicedAll(text: string, ms: seq<Match>, kind: string, rep: string -> string,
                   result: string, offset: int, replacements: seq<Replacement>)
    requires Ordered(text, ms)
    requires SplicedUpTo(text, ms, kind, rep, |ms|, result, offset, replacements)
    ensures result == Masked(text, ms, rep)
    ensures replacements == Records(ms, kind, rep)
  {
    assert ms[..|ms|] == ms;
  }

  /** The match to splice in next lies within the current output. */
  lemma SpliceInRange(text: string, ms: seq<Match>, kind: string, rep: string -> string, i: int,
                      result: string, offset: int, replacements: seq<Replacement>)
    requires Ordered(text, ms) && 0 <= i < |ms|
    requires SplicedUpTo(text, ms, kind, rep, i, result, offset, replacements)
    ensures 0 <= ms[i].index + offset <= ms[i].index + offset + |ms[i].text| <= |result|
  {
    MaskStep(text, ms, rep, i, result, offset);
  }

  /** One iteration of the `maskPattern` loop keeps its state. */
  lemma SpliceNext(text: string, ms: seq<Match>, kind: string, rep: string -> string, i: int,
                   result: string, offset: int, replacements: seq<Replacement>,
                   result': string, offset': int, replacements': seq<Replacement>)
    requires 0 <= i < |ms|
    requires SplicedUpTo(text, ms, kind, rep, i, result, offset, replacements)
    requires 0 <= ms[i].index + offset <= ms[i].index + offset + |ms[i].text| <= |result|
    requires var at := ms[i].index + offset;
             result' == result[..at] + rep(ms[i].text) + result[at + |ms[i].text|..]
    requires offset' == offset + |rep(ms[i].text)| - |ms[i].text|
    requires replacements' == replacements + [Replacement(kind, ms[i].text, rep(ms[i].text), ms[i].index, ms[i].index + |ms[i].text|)]
    ensures SplicedUpTo(text, ms, kind, rep, i + 1, result', offset', replacements')
  {
    SpliceParts(text, ms, kind, rep, i, result, offset, replacements, result', offset', replacements');
  }

  /** The three parts of the loop state after one more match. */
  lemma SpliceParts(text: string, ms: seq<Match>, kind: string, rep: string -> string, i: int,
                    result: string, offset: int, replacements: seq<Replacement>,
                    result': string, offset': int, replacements': seq<Replacement>)
    requires Ordered(text, ms) && 0 <= i < |ms|
    requires result == Prefix(text, ms, rep, i) + text[Before(ms, i)..]
    requires offset == |Prefix(text, ms, rep, i)| - Before(ms, i)
    requires replacements == Records(ms[..i], kind, rep)
    requires 0 <= ms[i].index + offset <= ms[i].index + offset + |ms[i].text| <= |result|
    requires var at := ms[i].index + offset;
             result' == result[..at] + rep(ms[i].text) + result[at + |ms[i].text|..]
    requires offset' == offset + |rep(ms[i].text)| - |ms[i].text|
    requires replacements' == replacements + [Replacement(kind, ms[i].text, rep(ms[i].text), ms[i].index, ms[i].index + |ms[i].text|)]
    ensures result' == Prefix(text, ms, rep, i + 1) + text[Before(ms, i + 1)..]
    ensures offset' == |Prefix(text, ms, rep, i + 1)| - Before(ms, i + 1)
    ensures replacements' == Records(ms[..i + 1], kind, rep)
  {
    MaskStep(text, ms, rep, i, result, offset);
    RecordsNext(ms, kind, rep, i);
  }

  lemma RecordsNext(ms: seq<Match>, kind: string, rep: string -> string, i: int)
    requires 0 <= i < |ms|
    ensures Records(ms[..i + 1], kind, rep)
            == Records(ms[..i], kind, rep) + [Replacement(kind, ms[i].text, rep(ms[i].text), ms[i].index, End(ms[i]))]
  {
    assert ms[..i + 1][..i] == ms[..i];
  }

  /** One iteration keeps the output equal to the rebuilt prefix and the rest of the input. */
  lemma MaskStep(text: string, ms: seq<Match>, rep: string -> string, i: int, result: string, offset: int)
    requires Ordered(text, ms) && 0 <= i < |ms|
    requires result == Prefix(text, ms, rep, i) + text[Before(ms, i)..]
    requires offset == |Prefix(text, ms, rep, i)| - Before(ms, i)
    ensures var at := ms[i].index + offset;
            && 0 <= at <= at + |ms[i].text| <= |result|
            && result[..at] + rep(ms[i].text) + result[at + |ms[i].text|..]
               == Prefix(text, ms, rep, i + 1) + text[Before(ms, i + 1)..]
            && offset + |rep(ms[i].text)| - |ms[i].text| == |Prefix(text, ms, rep, i + 1)| - Before(ms, i + 1)
  {
    var prefix := Prefix(text, ms, rep, i);
    assert i > 0 ==> End(ms[i - 1]) <= ms[i].index;
    assert Prefix(text, ms, rep, i + 1) == prefix + text[Before(ms, i)..ms[i].index] + rep(ms[i].text);
    assert Before(ms, i + 1) == End(ms[i]);
    SpliceStep(prefix, text, Before(ms, i), ms[i].index, End(ms[i]));
  }

  /** Cutting `prefix + text[from..]` at the shifted match position. */
  lemma SpliceStep(prefix: string, text: string, from: nat, start: nat, end: nat)
    requires from <= start <= end <= |text|
    ensures var s := prefix + text[from..];
            var at := |prefix| + (start - from);
            && at + (end - start) <= |s|
            && s[..at] == prefix + text[from..start]
            && s[at + (end - start)..] == text[end..]
  {
    var s := prefix + text[from..];
    var at := |prefix| + (start - from);
    assert s[..at] == prefix + text[from..start];
    assert s[at + (end - start)..] == text[end..];
  }

  // ---------------------------------------------------------------------------
  // `simpleHash`: h = h·31 + charCode in 32-bit arithmetic, |h| in base 36, at most
  // six characters, upper-cased.

  const Two31: int := 0x8000_0000
  const Two32: int := 0x1_0000_0000

  /** `x | 0`: the 32-bit signed integer congruent to `x`. */
  function Wrap32(x: int): (r: int)
    ensures -Two31 <= r < Two31
    ensures (r - x) % Two32 == 0
  {
    (x + Two31) % Two32 - Two31
  }

  /** The hash after folding every code unit of `u`. */
  function HashOf(u: seq<int>): (h: int)
    ensures -Two31 <= h < Two31
    decreases |u|
  {
    if |u| == 0 then 0 else Wrap32(31 * HashOf(u[..|u| - 1]) + u[|u| - 1])
  }

  /** A digit of `toString(36)`: `0`–`9`, then `a`–`z`. */
  predicate IsBase36Digit(c: char) {
    '0' <= c <= '9' || 'a' <= c <= 'z'
  }

  function Digit36(d: nat): (c: char)
    requires d < 36
    ensures IsBase36Digit(c) && DigitValue36(c) == d
    ensures c == '0' <==> d == 0
  {
    if d < 10 then ('0' as int + d) as char else ('a' as int + d - 10) as char
  }

  /** The value of one base-36 digit. */
  function DigitValue36(c: char): (d: nat)
    requires IsBase36Digit(c)
    ensures d < 36
  {
    if c <= '9' then c as int - '0' as int else c as int - 'a' as int + 10
  }

  /** The number a string of base-36 digits denotes. */
  function Value36(r: string): nat
    requires forall k :: 0 <= k < |r| ==> IsBase36Digit(r[k])
  {
    if |r| == 0 then 0 else 36 * Value36(r[..|r| - 1]) + DigitValue36(r[|r| - 1])
  }

  /** `n.toString(36)`: the base-36 digits of `n`, without leading zeros. */
  function Base36(n: nat): (r: string)
    ensures |r| >= 1
    ensures forall k :: 0 <= k < |r| ==> IsBase36Digit(r[k])
    ensures Value36(r) == n
    ensures r[0] == '0' ==> n == 0
  {
    if n < 36 then
      assert [Digit36(n)][..0] == [];
      [Digit36(n)]
    else
      var r := Base36(n / 36) + [Digit36(n % 36)];
      assert r[..|r| - 1] == Base36(n / 36);
      r
  }

  function Abs(x: int): nat {
    if x < 0 then -x else x
  }

  /** The token `simpleHash` returns for `s`. */
  function HashToken(s: string): (r: string)
    ensures 1 <= |r| <= 6
    ensures forall k :: 0 <= k < |r| ==> '0' <= r[k] <= '9' || 'A' <= r[k] <= 'Z'
  {
    var digits := Base36(Abs(HashOf(Utf16(s))));
    var kept := if |digits| <= 6 then digits else digits[..6];
    assert forall k :: 0 <= k < |kept| ==> IsBase36Digit(kept[k]);
    Upper(kept)
  }

  /** `simpleHash`: the loop over the code units of `s` (`charCodeAt`). */
  method SimpleHash(s: string) returns (r: string)
    ensures r == HashToken(s)
  {
    var units := Utf16(s);
    var hash := 0;
    var i := 0;
    while i < |units|
      invariant 0 <= i <= |units|
      invariant hash == HashOf(units[..i])
    {
      var c := units[i];
      assert units[..i + 1][..i] == units[..i];
      ShiftSubtractIsTimes31(hash, c);
      hash := Wrap32(Wrap32(hash * 32) - hash + c);
      i := i + 1;
    }
    assert units[..i] == units;
    var digits := Base36(Abs(hash));
    var kept := if |digits| <= 6 then digits else digits[..6];
    r := Upper(kept);
  }

  /** `(h << 5) - h + c`, wrapped to 32 bits, is `h·31 + c` wrapped to 32 bits. */
  lemma ShiftSubtractIsTimes31(h: int, c: int)
    ensures Wrap32(Wrap32(h * 32) - h + c) == Wrap32(31 * h + c)
  {
    var w := Wrap32(h * 32);
    var q := (w - h * 32) / Two32;
    assert w - h * 32 == q * Two32;
    CongruentWrap(w - h + c, 31 * h + c, q);
  }

  lemma CongruentWrap(x: int, y: int, q: int)
    requires x == y + q * Two32
    ensures Wrap32(x) == Wrap32(y)
  {
    assert (x + Two31) % Two32 == (y + Two31) % Two32 by {
      ModShift(y + Two31, q);
    }
  }

  lemma ModShift(a: int, q: int)
    ensures (a + q * Two32) % Two32 == a % Two32
  {
  }

  // ---------------------------------------------------------------------------
  // `anonymizeText`.

  /** One masking pass: the record type, the pattern and a custom pattern's replacement. */
  datatype Pass = Pass(kind: string, pattern: Pattern, custom: Option<string>)

  /** The built-in patterns `anonymizeText` applies, in order; `dateOfBirth` is not among them. */
  const BuiltinNames: seq<string> := ["email", "phone", "ssn", "creditCard", "ipAddress"]

  /** The `detect…` flag of a built-in pattern. */
  function Detects(c: Config, name: string): bool {
    match name
    case "email" => c.detectEmail
    case "phone" => c.detectPhone
    case "ssn" => c.detectSSN
    case "creditCard" => c.detectCreditCard
    case "ipAddress" => c.detectIpAddress
    case _ => false
  }

  /** The passes for the enabled names among `names`, in order. */
  function EnabledPasses(c: Config, names: seq<string>): (r: seq<Pass>)
    ensures |r| <= |names|
    ensures forall p :: p in r ==> p.pattern == Builtin(p.kind) && p.custom.None? && p.kind in names && Detects(c, p.kind)
    decreases |names|
  {
    if |names| == 0 then []
    else
      (if Detects(c, names[0]) then [Pass(names[0], Builtin(names[0]), None)] else [])
        + EnabledPasses(c, names[1..])
  }

  /** The enabled built-in passes in their fixed order. */
  function BuiltinPasses(c: Config): (r: seq<Pass>)
    ensures forall p :: p in r ==> p.pattern == Builtin(p.kind) && p.custom.None? && p.kind in BuiltinNames
  {
    EnabledPasses(c, BuiltinNames)
  }

  /** The custom patterns in list order, those that do not compile skipped. */
  function CustomPasses(patterns: seq<CustomPattern>, compiles: string -> bool): (r: seq<Pass>)
    ensures |r| <= |patterns|
    ensures forall p :: p in r ==> p.pattern.Custom? && compiles(p.pattern.source)
    decreases |patterns|
  {
    if |patterns| == 0 then []
    else
      var p := patterns[0];
      (if compiles(p.pattern) then [Pass(p.name, Custom(p.pattern), p.replacement)] else [])
        + CustomPasses(patterns[1..], compiles)
  }

  /** Every pass `anonymizeText` runs, in order. */
  function Passes(c: Config, compiles: string -> bool): (r: seq<Pass>)
    ensures forall p :: p in r ==>
              (p.pattern == Builtin(p.kind) && p.kind in BuiltinNames) || (p.pattern.Custom? && compiles(p.pattern.source))
    ensures c.customPatterns.None? ==> r == BuiltinPasses(c)
  {
    BuiltinPasses(c) + if c.customPatterns.Some? then CustomPasses(c.customPatterns.value, compiles) else []
  }

  /** The final text and the concatenated replacement lists after running `passes` on `text`. */
  function RunPasses(text: string, passes: seq<Pass>, style: string, exec: (Pattern, string) -> seq<Match>)
    : (r: (string, seq<Replacement>))
    requires Sound(exec)
    decreases |passes|
  {
    if |passes| == 0 then (text, [])
    else
      var p := passes[0];
      var ms := exec(p.pattern, text);
      var rep := Replacer(p.kind, style, p.custom);
      var rest := RunPasses(Masked(text, ms, rep), passes[1..], style, exec);
      (rest.0, Records(ms, p.kind, rep) + rest.1)
  }

  /** Running `passes[i..]` is running pass `i` and then `passes[i + 1..]` on its output. */
  lemma RunPassesStep(text: string, passes: seq<Pass>, i: int, style: string, exec: (Pattern, string) -> seq<Match>)
    requires Sound(exec) && 0 <= i < |passes|
    ensures var p := passes[i];
            var ms := exec(p.pattern, text);
            var rep := Replacer(p.kind, style, p.custom);
            && RunPasses(text, passes[i..], style, exec).0 == RunPasses(Masked(text, ms, rep), passes[i + 1..], style, exec).0
            && RunPasses(text, passes[i..], style, exec).1
               == Records(ms, p.kind, rep) + RunPasses(Masked(text, ms, rep), passes[i + 1..], style, exec).1
  {
    assert passes[i..][1..] == passes[i + 1..];
  }

  datatype AnonymizationResult = AnonymizationResult(text: string, replacements: seq<Replacement>, piiDetected: bool)

  /** `anonymizeText` specified. */
  function Anonymized(text: string, config: PartialConfig, exec: (Pattern, string) -> seq<Match>,
                      compiles: string -> bool): (r: AnonymizationResult)
    requires Sound(exec)
    ensures !Merge(config).enabled ==> r == AnonymizationResult(text, [], false)
    ensures r.piiDetected <==> |r.replacements| > 0
  {
    var c := Merge(config);
    if !c.enabled then AnonymizationResult(text, [], false)
    else
      var run := RunPasses(text, Passes(c, compiles), c.maskingStyle, exec);
      AnonymizationResult(run.0, run.1, |run.1| > 0)
  }

  /** `anonymizeText` (and `anonymizePrompt`, which only calls it). */
  method AnonymizeText(text: string, config: PartialConfig, exec: (Pattern, string) -> seq<Match>,
                       compiles: string -> bool) returns (r: AnonymizationResult)
    requires Sound(exec)
    ensures r == Anonymized(text, config, exec, compiles)
  {
    var c := Merge(config);
    if !c.enabled {
      return AnonymizationResult(text, [], false);
    }
    var result, replacements := ApplyPasses(text, Passes(c, compiles), c.maskingStyle, exec);
    r := AnonymizationResult(result, replacements, |replacements| > 0);
  }

  /** The passes of `anonymizeText` in turn, each on the output of the one before. */
  method ApplyPasses(text: string, passes: seq<Pass>, style: string, exec: (Pattern, string) -> seq<Match>)
    returns (result: string, replacements: seq<Replacement>)
    requires Sound(exec)
    ensures result == RunPasses(text, passes, style, exec).0
    ensures replacements == RunPasses(text, passes, style, exec).1
  {
    result := text;
    replacements := [];
    var i := 0;
    while i < |passes|
      invariant 0 <= i <= |passes|
      invariant RunPasses(result, passes[i..], style, exec).0 == RunPasses(text, passes, style, exec).0
      invariant replacements + RunPasses(result, passes[i..], style, exec).1 == RunPasses(text, passes, style, exec).1
    {
      var pass := passes[i];
      var masked, found := MaskPattern(result, exec(pass.pattern, result), pass.kind, style, pass.custom);
      RunPassesStep(result, passes, i, style, exec);
      AppendAssociates(replacements, found, RunPasses(masked, passes[i + 1..], style, exec).1);
      result := masked;
      replacements := replacements + found;
      i := i + 1;
    }
  }

  // ---------------------------------------------------------------------------
  // `anonymizeMessages`.

  datatype ChatMessage = ChatMessage(role: string, content: string)

  /** Only user messages are anonymized; the others pass through. */
  function AnonymizedMessage(m: ChatMessage, config: PartialConfig, exec: (Pattern, string) -> seq<Match>,
                             compiles: string -> bool): (r: ChatMessage)
    requires Sound(exec)
    ensures r.role == m.role
    ensures m.role != "user" ==> r == m
  {
    if m.role != "user" then m
    else m.(content := Anonymized(m.content, config, exec, compiles).text)
  }

  /** The replacements counted for a message: those of a user message's anonymization. */
  function ReplacementsIn(m: ChatMessage, config: PartialConfig, exec: (Pattern, string) -> seq<Match>,
                          compiles: string -> bool): nat
    requires Sound(exec)
  {
    if m.role != "user" then 0 else |Anonymized(m.content, config, exec, compiles).replacements|
  }

  function TotalReplacements(ms: seq<ChatMessage>, config: PartialConfig, exec: (Pattern, string) -> seq<Match>,
                             compiles: string -> bool): nat
    requires Sound(exec)
    decreases |ms|
  {
    if |ms| == 0 then 0
    else TotalReplacements(ms[..|ms| - 1], config, exec, compiles) + ReplacementsIn(ms[|ms| - 1], config, exec, compiles)
  }

  /** The state of the `anonymizeMessages` loop after `i` messages. */
  ghost predicate MessagesUpTo(messages: seq<ChatMessage>, config: PartialConfig, exec: (Pattern, string) -> seq<Match>,
                               compiles: string -> bool, i: int, anonymized: seq<ChatMessage>, total: nat)
    requires Sound(exec) && 0 <= i <= |messages|
  {
    && |anonymized| == i
    && (forall k :: 0 <= k < i ==> anonymized[k] == AnonymizedMessage(messages[k], config, exec, compiles))
    && total == TotalReplacements(messages[..i], config, exec, compiles)
  }

  /** One iteration of the `anonymizeMessages` loop keeps its state. */
  lemma MessagesNext(messages: seq<ChatMessage>, config: PartialConfig, exec: (Pattern, string) -> seq<Match>,
                     compiles: string -> bool, i: int, anonymized: seq<ChatMessage>, total: nat,
                     anonymized': seq<ChatMessage>, total': nat)
    requires Sound(exec) && 0 <= i < |messages|
    requires MessagesUpTo(messages, config, exec, compiles, i, anonymized, total)
    requires anonymized' == anonymized + [AnonymizedMessage(messages[i], config, exec, compiles)]
    requires total' == total + ReplacementsIn(messages[i], config, exec, compiles)
    ensures MessagesUpTo(messages, config, exec, compiles, i + 1, anonymized', total')
  {
    var prefix := messages[..i + 1];
    assert prefix[..|prefix| - 1] == messages[..i];
    assert TotalReplacements(prefix, config, exec, compiles)
      == TotalReplacements(messages[..i], config, exec, compiles) + ReplacementsIn(messages[i], config, exec, compiles);
    assert anonymized'[i] == AnonymizedMessage(messages[i], config, exec, compiles);
    assert forall k :: 0 <= k < i ==> anonymized'[k] == anonymized[k];
  }

  /** The callback of `anonymizeMessages` for one message, with its count of replacements. */
  method AnonymizeMessage(message: ChatMessage, config: PartialConfig, exec: (Pattern, string) -> seq<Match>,
                          compiles: string -> bool) returns (out: ChatMessage, count: nat)
    requires Sound(exec)
    ensures out == AnonymizedMessage(message, config, exec, compiles)
    ensures count == ReplacementsIn(message, config, exec, compiles)
  {
    if message.role != "user" {
      return message, 0;
    }
    var result := AnonymizeText(message.content, config, exec, compiles);
    count := if result.piiDetected then |result.replacements| else 0;
    out := message.(content := result.text);
  }

  /** `anonymizeMessages`: the messages mapped in order, with the total of replacements. */
  method AnonymizeMessages(messages: seq<ChatMessage>, config: PartialConfig, exec: (Pattern, string) -> seq<Match>,
                           compiles: string -> bool)
    returns (anonymized: seq<ChatMessage>, piiDetected: bool, totalReplacements: nat)
    requires Sound(exec)
    ensures |anonymized| == |messages|
    ensures forall k :: 0 <= k < |messages| ==> anonymized[k] == AnonymizedMessage(messages[k], config, exec, compiles)
    ensures totalReplacements == TotalReplacements(messages, config, exec, compiles)
    ensures piiDetected <==> totalReplacements > 0
  {
    anonymized := [];
    piiDetected := false;
    totalReplacements := 0;
    var i := 0;
    while i < |messages|
      invariant 0 <= i <= |messages|
      invariant MessagesUpTo(messages, config, exec, compiles, i, anonymized, totalReplacements)
      invariant piiDetected <==> totalReplacements > 0
    {
      var out, count := AnonymizeMessage(messages[i], config, exec, compiles);
      ghost var (anonymized0, total0) := (anonymized, totalReplacements);
      if count > 0 {
        piiDetected := true;
        totalReplacements := totalReplacements + count;
      }
      anonymized := anonymized + [out];
      MessagesNext(messages, config, exec, compiles, i, anonymized0, total0, anonymized, totalReplacements);
      i := i + 1;
    }
    assert messages[..i] == messages;
  }

  // ---------------------------------------------------------------------------
  // `detectPII`.

  datatype Detection = Detection(hasPII: bool, types: seq<string>, count: nat)

  /** One built-in check: its type when the text has a match, and the number of matches. */
  function DetectOne(enabled: bool, name: string, text: string, exec: (Pattern, string) -> seq<Match>)
    : (r: (seq<string>, nat))
    ensures |r.0| > 0 <==> r.1 > 0
  {
    var found := exec(Builtin(name), text);
    if enabled && |found| > 0 then ([name], |found|) else ([], 0)
  }

  /** `detectPII`: the enabled built-in patterns matched against the unmodified text. */
  function DetectPII(text: string, config: PartialConfig, exec: (Pattern, string) -> seq<Match>): (r: Detection)
    ensures r.hasPII <==> |r.types| > 0
    ensures r.hasPII <==> r.count > 0
  {
    var c := Merge(config);
    var email := DetectOne(c.detectEmail, "email", text, exec);
    var phone := DetectOne(c.detectPhone, "phone", text, exec);
    var ssn := DetectOne(c.detectSSN, "ssn", text, exec);
    var card := DetectOne(c.detectCreditCard, "creditCard", text, exec);
    var ip := DetectOne(c.detectIpAddress, "ipAddress", text, exec);
    var count := email.1 + phone.1 + ssn.1 + card.1 + ip.1;
    Detection(count > 0, email.0 + phone.0 + ssn.0 + card.0 + ip.0, count)
  }

  /** One entry of the configuration UI's category list. */
  datatype Category = Category(id: string, name: string, description: string, isDefault: bool)

  /** `getAvailableCategories`: the categories the UI may switch, one per built-in pattern. */
  function AvailableCategories(): (r: seq<Category>)
    ensures |r| == |BuiltinNames|
    ensures forall k :: 0 <= k < |r| ==> r[k].id == BuiltinNames[k] && r[k].isDefault == Detects(DefaultConfig, r[k].id)
  {
    [Category("email", "Email Addresses", "Detects email addresses like user@example.com", true),
     Category("phone", "Phone Numbers", "Detects phone numbers in various formats", true),
     Category("ssn", "Social Security Numbers", "Detects SSN patterns (xxx-xx-xxxx)", true),
     Category("creditCard", "Credit Card Numbers", "Detects credit card number patterns", true),
     Category("ipAddress", "IP Addresses", "Detects IPv4 addresses", true)]
  }

  // ---------------------------------------------------------------------------
  // Properties.

  /** With no match the text is unchanged and nothing is recorded. */
  lemma NoMatchUnchanged(text: string, kind: string, rep: string -> string)
    ensures Masked(text, [], rep) == text
    ensures Records([], kind, rep) == []
  {
  }

  /** 'redact' writes one '*' per UTF-16 code unit: an emoji becomes two. */
  lemma RedactAstral(kind: string, custom: Option<string>)
    ensures ReplacementFor(kind, "redact", custom, "\U{1F600}") == "**"
  {
    assert Utf16Length("\U{1F600}") == 2 by {
      assert "\U{1F600}"[..0] == "";
    }
  }

  /** The sum of (replacement length − original length) over the first `i` matches: `offset` before match `i`. */
  function Growth(ms: seq<Match>, rep: string -> string, i: int): int
    requires 0 <= i <= |ms|
    decreases i
  {
    if i == 0 then 0 else Growth(ms, rep, i - 1) + |rep(ms[i - 1].text)| - |ms[i - 1].text|
  }

  /** The output so far is as long as the input consumed plus the growth. */
  lemma {:induction false} PrefixLength(text: string, ms: seq<Match>, rep: string -> string, i: int)
    requires Ordered(text, ms) && 0 <= i <= |ms|
    ensures |Prefix(text, ms, rep, i)| == Before(ms, i) + Growth(ms, rep, i)
    decreases i
  {
    if i > 0 {
      PrefixLength(text, ms, rep, i - 1);
    }
  }

  /** The masked text is longer than the input by exactly the total growth. */
  lemma MaskedLength(text: string, ms: seq<Match>, rep: string -> string)
    requires Ordered(text, ms)
    ensures |Masked(text, ms, rep)| == |text| + Growth(ms, rep, |ms|)
  {
    PrefixLength(text, ms, rep, |ms|);
  }

  lemma {:induction false} PrefixExtends(text: string, ms: seq<Match>, rep: string -> string, i: int, j: int)
    requires Ordered(text, ms) && 0 <= i <= j <= |ms|
    ensures Prefix(text, ms, rep, i) <= Prefix(text, ms, rep, j)
    decreases j - i
  {
    if i < j {
      PrefixExtends(text, ms, rep, i, j - 1);
    }
  }

  /**
   * In the output, the replacement of match `k` sits at the match's input position
   * shifted by the growth of the earlier matches, as `offset` tracks it.
   */
  lemma ReplacementInOutput(text: string, ms: seq<Match>, rep: string -> string, k: int)
    requires Ordered(text, ms) && 0 <= k < |ms|
    ensures var out := Masked(text, ms, rep);
            var at := ms[k].index + Growth(ms, rep, k);
            && 0 <= at && at + |rep(ms[k].text)| <= |out|
            && out[at..at + |rep(ms[k].text)|] == rep(ms[k].text)
  {
    var head := HeadBefore(text, ms, rep, k);
    SliceOfPrefix(head, rep(ms[k].text), Masked(text, ms, rep), ms[k].index + Growth(ms, rep, k));
  }

  /** The output before the replacement of match `k`: as long as the match's shifted position. */
  lemma HeadBefore(text: string, ms: seq<Match>, rep: string -> string, k: int) returns (head: string)
    requires Ordered(text, ms) && 0 <= k < |ms|
    ensures |head| == ms[k].index + Growth(ms, rep, k)
    ensures head + rep(ms[k].text) <= Masked(text, ms, rep)
  {
    assert k > 0 ==> End(ms[k - 1]) <= ms[k].index;
    head := Prefix(text, ms, rep, k) + text[Before(ms, k)..ms[k].index];
    assert Prefix(text, ms, rep, k + 1) == head + rep(ms[k].text);
    PrefixLength(text, ms, rep, k);
    PrefixInMasked(text, ms, rep, k + 1);
  }

  lemma PrefixInMasked(text: string, ms: seq<Match>, rep: string -> string, i: int)
    requires Ordered(text, ms) && 0 <= i <= |ms|
    ensures Prefix(text, ms, rep, i) <= Masked(text, ms, rep)
  {
    PrefixExtends(text, ms, rep, i, |ms|);
  }

  lemma SliceOfPrefix(head: string, r: string, out: string, at: int)
    requires head + r <= out && |head| == at
    ensures 0 <= at && at + |r| <= |out| && out[at..at + |r|] == r
  {
    assert out[..|head| + |r|] == head + r;
  }

  /**
   * With replacements as long as what they replace, in UTF-16 code units, the
   * output so far is as long as the input it has consumed.
   */
  lemma {:induction false} PrefixUnits(text: string, ms: seq<Match>, rep: string -> string, i: int)
    requires WellFormed(text, ms) && 0 <= i <= |ms|
    requires KeepsUnits(ms, rep)
    ensures Utf16Length(Prefix(text, ms, rep, i)) == Utf16Length(text[..Before(ms, i)])
    decreases i
  {
    if i > 0 {
      var j := i - 1;
      PrefixUnits(text, ms, rep, j);
      PrefixUnitsNext(text, ms, rep, j);
    }
  }

  /** Every replacement has the `length` of the match it replaces. */
  predicate KeepsUnits(ms: seq<Match>, rep: string -> string) {
    forall k :: 0 <= k < |ms| ==> Utf16Length(rep(ms[k].text)) == Utf16Length(ms[k].text)
  }

  /** One match further: the replaced match and the gap before it keep the counts equal. */
  lemma PrefixUnitsNext(text: string, ms: seq<Match>, rep: string -> string, j: int)
    requires WellFormed(text, ms) && 0 <= j < |ms|
    requires Utf16Length(Prefix(text, ms, rep, j)) == Utf16Length(text[..Before(ms, j)])
    requires KeepsUnits(ms, rep)
    ensures Utf16Length(Prefix(text, ms, rep, j + 1)) == Utf16Length(text[..Before(ms, j + 1)])
  {
    var m := ms[j];
    assert Utf16Length(rep(m.text)) == Utf16Length(m.text);
    var from := Before(ms, j);
    assert from <= m.index by {
      assert j > 0 ==> End(ms[j - 1]) <= m.index;
    }
    var p := Prefix(text, ms, rep, j);
    var gap := text[from..m.index];
    assert Prefix(text, ms, rep, j + 1) == p + gap + rep(m.text);
    assert text[..Before(ms, j + 1)] == text[..from] + gap + m.text by {
      SliceSplit(text, from, m.index, End(m));
      assert text[m.index..End(m)] == m.text;
    }
    UnitsStep(p, text[..from], gap, rep(m.text), m.text);
  }

  lemma UnitsStep(p: string, consumed: string, gap: string, r: string, t: string)
    requires Utf16Length(p) == Utf16Length(consumed) && Utf16Length(r) == Utf16Length(t)
    ensures Utf16Length(p + gap + r) == Utf16Length(consumed + gap + t)
  {
    Utf16Append(p + gap, r);
    Utf16Append(p, gap);
    Utf16Append(consumed + gap, t);
    Utf16Append(consumed, gap);
  }

  lemma SliceSplit(s: string, a: int, b: int, c: int)
    requires 0 <= a <= b <= c <= |s|
    ensures s[..c] == s[..a] + s[a..b] + s[b..c]
  {
  }

  /** 'redact' preserves the text's `length`, which counts UTF-16 code units. */
  lemma RedactPreservesLength(text: string, ms: seq<Match>, kind: string, custom: Option<string>)
    requires WellFormed(text, ms)
    ensures Utf16Length(Masked(text, ms, Replacer(kind, "redact", custom))) == Utf16Length(text)
  {
    var rep := Replacer(kind, "redact", custom);
    forall k | 0 <= k < |ms| ensures Utf16Length(rep(ms[k].text)) == Utf16Length(ms[k].text) {
      assert rep(ms[k].text) == ReplacementFor(kind, "redact", custom, ms[k].text);
    }
    var before := Before(ms, |ms|);
    var head := Prefix(text, ms, rep, |ms|);
    PrefixUnits(text, ms, rep, |ms|);
    Utf16Append(head, text[before..]);
    Utf16Split(text, before);
  }

  /** Each record holds the matched text and its start and end in the pass's input. */
  lemma {:induction false} RecordsInInputCoordinates(text: string, ms: seq<Match>, kind: string, rep: string -> string,
                                                     k: int)
    requires WellFormed(text, ms) && 0 <= k < |ms|
    ensures var r := Records(ms, kind, rep)[k];
            && r.start == ms[k].index && r.end == End(ms[k]) && 0 <= r.start < r.end <= |text|
            && r.original == text[r.start..r.end]
            && r.replacement == rep(r.original)
            && r.kind == kind
    decreases |ms|
  {
    if k < |ms| - 1 {
      var front := ms[..|ms| - 1];
      assert WellFormed(text, front) by {
        assert forall j :: 0 <= j < |front| ==> front[j] == ms[j];
      }
      RecordsInInputCoordinates(text, front, kind, rep, k);
    }
  }

  /** When no pass finds a match, the text is unchanged and nothing is recorded. */
  lemma {:induction false} NoMatchesNoChange(text: string, passes: seq<Pass>, style: string,
                                             exec: (Pattern, string) -> seq<Match>)
    requires Sound(exec)
    requires forall k :: 0 <= k < |passes| ==> exec(passes[k].pattern, text) == []
    ensures RunPasses(text, passes, style, exec).0 == text
    ensures RunPasses(text, passes, style, exec).1 == []
    decreases |passes|
  {
    if |passes| > 0 {
      var p := passes[0];
      var rep := Replacer(p.kind, style, p.custom);
      assert exec(p.pattern, text) == [];
      assert text[0..] == text;
      assert Masked(text, [], rep) == text;
      assert forall k :: 0 <= k < |passes[1..]| ==> passes[1..][k] == passes[k + 1];
      NoMatchesNoChange(text, passes[1..], style, exec);
      assert RunPasses(text, passes, style, exec)
          == (RunPasses(text, passes[1..], style, exec).0, Records([], p.kind, rep) + RunPasses(text, passes[1..], style, exec).1);
      assert Records([], p.kind, rep) == [];
      assert RunPasses(text, passes[1..], style, exec) == (text, []);
    } else {
      assert RunPasses(text, passes, style, exec) == (text, []);
    }
  }

  /** Each pass runs on the previous pass's output: the second pass sees the first one's result. */
  lemma PassesChain(text: string, first: Pass, second: Pass, style: string, exec: (Pattern, string) -> seq<Match>)
    requires Sound(exec)
    ensures var ms := exec(first.pattern, text);
            var rep := Replacer(first.kind, style, first.custom);
            var between := Masked(text, ms, rep);
            var ms2 := exec(second.pattern, between);
            var rep2 := Replacer(second.kind, style, second.custom);
            RunPasses(text, [first, second], style, exec)
              == (Masked(between, ms2, rep2), Records(ms, first.kind, rep) + Records(ms2, second.kind, rep2))
  {
    var ms := exec(first.pattern, text);
    var rep := Replacer(first.kind, style, first.custom);
    var between := Masked(text, ms, rep);
    var ms2 := exec(second.pattern, between);
    var rep2 := Replacer(second.kind, style, second.custom);
    assert [first, second][1..] == [second];
    assert [second][1..] == [];
    assert RunPasses(between, [second], style, exec)
        == (Masked(between, ms2, rep2), Records(ms2, second.kind, rep2) + []);
    assert Records(ms2, second.kind, rep2) + [] == Records(ms2, second.kind, rep2);
  }

  /** `detectPII` does not look at `enabled`. */
  lemma DetectIgnoresEnabled(text: string, config: PartialConfig, exec: (Pattern, string) -> seq<Match>, e: bool)
    ensures DetectPII(text, config.(enabled := Some(e)), exec) == DetectPII(text, config, exec)
  {
  }

  /** Under 'hash' the same matched text always gets the same token, whatever its position. */
  lemma HashTokenIsStable(kind: string, custom: Option<string>, a: Match, b: Match)
    requires a.text == b.text
    ensures Record(kind, Replacer(kind, "hash", custom), a).replacement
         == Record(kind, Replacer(kind, "hash", custom), b).replacement
  {
  }
}
