/**
 * String helpers with the semantics of the JavaScript string methods the gateway
 * calls: `startsWith`, `replace` (first occurrence, with a plain string), the global
 * regex `replace` of a literal placeholder, `split` on one character, `join`, `trim`,
 * and the decimal rendering of integers done by `String(n)`.
 * Case mapping is ASCII-only; `trim` removes the ECMAScript white-space and line
 * terminator characters. Lengths in UTF-16 code units are given by `Utf16Length`.
 */
module Strings {

  import opened Wrappers

  predicate StartsWith(s: string, prefix: string) {
    |prefix| <= |s| && s[..|prefix|] == prefix
  }

  /** True when `pat` occurs in `s` starting at index `i`. */
  predicate OccursAt(s: string, pat: string, i: nat) {
    i + |pat| <= |s| && s[i..i + |pat|] == pat
  }

  /**
   * Global replacement of a literal, non-empty pattern, scanning left to right and
   * resuming after each replaced occurrence, as `s.replace(/pat/g, rep)` does.
   */
  function ReplaceAll(s: string, pat: string, rep: string): string
    requires |pat| > 0
    decreases |s|
  {
    if |s| < |pat| then s
    else if s[..|pat|] == pat then rep + ReplaceAll(s[|pat|..], pat, rep)
    else [s[0]] + ReplaceAll(s[1..], pat, rep)
  }

  /** Index of the first occurrence of `pat` at or after `from`, if any. */
  function IndexOf(s: string, pat: string, from: nat): (r: Option<nat>)
    ensures r.Some? ==> from <= r.value && OccursAt(s, pat, r.value)
    ensures r.Some? ==> forall k :: from <= k < r.value ==> !OccursAt(s, pat, k)
    ensures r.None? ==> forall k :: from <= k ==> !OccursAt(s, pat, k)
    decreases |s| - from
  {
    if from + |pat| > |s| then None
    else if s[from..from + |pat|] == pat then Some(from)
    else IndexOf(s, pat, from + 1)
  }

  /** `s.replace(pat, rep)` with a string pattern: only the first occurrence. */
  function ReplaceFirst(s: string, pat: string, rep: string): string {
    match IndexOf(s, pat, 0)
    case None => s
    case Some(i) => s[..i] + rep + s[i + |pat|..]
  }

  /** Index of the first `c` in `s`, or `|s|` when there is none. */
  function FirstIndexOf(s: string, c: char): (i: nat)
    ensures i <= |s|
    ensures i < |s| ==> s[i] == c
    ensures forall k :: 0 <= k < i ==> s[k] != c
  {
    if |s| == 0 then 0
    else if s[0] == c then 0
    else 1 + FirstIndexOf(s[1..], c)
  }

  /** `s.split(sep)` for a one-character separator: "a\nb\n" gives ["a", "b", ""]. */
  function Split(s: string, sep: char): (parts: seq<string>)
    ensures |parts| >= 1
    ensures forall k :: 0 <= k < |parts| ==> sep !in parts[k]
    ensures Join(parts, [sep]) == s
    ensures parts[0] == s[..FirstIndexOf(s, sep)]
    decreases |s|
  {
    var i := FirstIndexOf(s, sep);
    if i == |s| then
      assert forall k :: 0 <= k < |s| ==> s[k] != sep;
      [s]
    else
      assert forall k :: 0 <= k < |s[..i]| ==> s[..i][k] != sep;
      var rest := Split(s[i + 1..], sep);
      assert ([s[..i]] + rest)[1..] == rest;
      assert s[..i] + [sep] + s[i + 1..] == s;
      [s[..i]] + rest
  }

  /** `xs.join(sep)`. */
  function Join(xs: seq<string>, sep: string): string {
    if |xs| == 0 then ""
    else if |xs| == 1 then xs[0]
    else xs[0] + sep + Join(xs[1..], sep)
  }

  /** The characters `String.prototype.trim` removes: white space and line terminators. */
  predicate IsWhitespace(c: char) {
    c == ' ' || c == '\t' || c == '\n' || c == '\r' || c == '\U{0B}' || c == '\U{0C}'
    || c == '\U{A0}' || c == '\U{FEFF}' || c == '\U{1680}'
    || ('\U{2000}' <= c <= '\U{200A}')
    || c == '\U{2028}' || c == '\U{2029}' || c == '\U{202F}' || c == '\U{205F}' || c == '\U{3000}'
  }

  function TrimStart(s: string): string
    decreases |s|
  {
    if |s| > 0 && IsWhitespace(s[0]) then TrimStart(s[1..]) else s
  }

  function TrimEnd(s: string): string
    decreases |s|
  {
    if |s| > 0 && IsWhitespace(s[|s| - 1]) then TrimEnd(s[..|s| - 1]) else s
  }

  /** `s.trim()`. */
  function Trim(s: string): string {
    TrimEnd(TrimStart(s))
  }

  /** True when `s.trim() === ''`. */
  predicate IsBlank(s: string) {
    forall k :: 0 <= k < |s| ==> IsWhitespace(s[k])
  }

  lemma {:induction false} TrimStartBlank(s: string)
    ensures TrimStart(s) == "" <==> IsBlank(s)
    decreases |s|
  {
    if |s| > 0 && IsWhitespace(s[0]) {
      TrimStartBlank(s[1..]);
      assert IsBlank(s) <==> IsBlank(s[1..]) by {
        if IsBlank(s[1..]) {
          forall k | 0 <= k < |s| ensures IsWhitespace(s[k]) {
            if k > 0 { assert s[k] == s[1..][k - 1]; }
          }
        }
      }
    }
  }

  lemma {:induction false} TrimEndEmpty(s: string)
    ensures TrimEnd(s) == "" <==> IsBlank(s)
    decreases |s|
  {
    if |s| > 0 && IsWhitespace(s[|s| - 1]) {
      TrimEndEmpty(s[..|s| - 1]);
      assert IsBlank(s) <==> IsBlank(s[..|s| - 1]) by {
        if IsBlank(s[..|s| - 1]) {
          forall k | 0 <= k < |s| ensures IsWhitespace(s[k]) {
            if k < |s| - 1 { assert s[k] == s[..|s| - 1][k]; }
          }
        }
      }
    }
  }

  lemma {:induction false} TrimStartBlankKeeps(s: string)
    requires IsBlank(s)
    ensures TrimStart(s) == ""
  {
    TrimStartBlank(s);
  }

  /** `s.trim() === ''` holds exactly for the strings made only of white space. */
  lemma {:induction false} TrimEmptyIffBlank(s: string)
    ensures Trim(s) == "" <==> IsBlank(s)
  {
    TrimStartBlank(s);
    TrimEndEmpty(TrimStart(s));
    if IsBlank(TrimStart(s)) && !IsBlank(s) {
      var k := TrimStartSuffix(s);
    }
  }

  /** Trimming only removes characters. */
  lemma {:induction false} TrimKeepsChars(s: string)
    ensures forall c :: c in Trim(s) ==> c in s
  {
    TrimStartSubset(s);
    TrimEndSubset(TrimStart(s));
  }

  lemma {:induction false} TrimStartSubset(s: string)
    ensures forall c :: c in TrimStart(s) ==> c in s
    decreases |s|
  {
    if |s| > 0 && IsWhitespace(s[0]) {
      TrimStartSubset(s[1..]);
    }
  }

  lemma {:induction false} TrimEndSubset(s: string)
    ensures forall c :: c in TrimEnd(s) ==> c in s
    decreases |s|
  {
    if |s| > 0 && IsWhitespace(s[|s| - 1]) {
      TrimEndSubset(s[..|s| - 1]);
    }
  }

  /** TrimStart only drops leading white space, so the rest of `s` is kept. */
  lemma {:induction false} TrimStartSuffix(s: string) returns (k: nat)
    ensures k <= |s| && TrimStart(s) == s[k..] && IsBlank(s[..k])
    decreases |s|
  {
    if |s| > 0 && IsWhitespace(s[0]) {
      var j := TrimStartSuffix(s[1..]);
      k := j + 1;
      assert s[1..][j..] == s[k..];
      BlankCons(s[0], s[1..][..j]);
      assert [s[0]] + s[1..][..j] == s[..k];
    } else {
      k := 0;
      assert TrimStart(s) == s[0..];
    }
  }

  lemma BlankCons(c: char, t: string)
    requires IsWhitespace(c) && IsBlank(t)
    ensures IsBlank([c] + t)
  {
    var u := [c] + t;
    forall j | 0 <= j < |u| ensures IsWhitespace(u[j]) {
      if j > 0 { assert u[j] == t[j - 1]; }
    }
  }

  function LowerChar(c: char): char {
    if 'A' <= c <= 'Z' then (c as int + 32) as char else c
  }

  function UpperChar(c: char): char {
    if 'a' <= c <= 'z' then (c as int - 32) as char else c
  }

  /** `s.toLowerCase()` on ASCII letters. */
  function Lower(s: string): (r: string)
    ensures |r| == |s|
    ensures forall k :: 0 <= k < |s| ==> r[k] == LowerChar(s[k])
  {
    seq(|s|, k requires 0 <= k < |s| => LowerChar(s[k]))
  }

  /** `s.toUpperCase()` on ASCII letters. */
  function Upper(s: string): (r: string)
    ensures |r| == |s|
    ensures forall k :: 0 <= k < |s| ==> r[k] == UpperChar(s[k])
  {
    seq(|s|, k requires 0 <= k < |s| => UpperChar(s[k]))
  }

  /** `c.repeat(n)`. */
  function Repeat(c: char, n: nat): (r: string)
    ensures |r| == n
    ensures forall k :: 0 <= k < n ==> r[k] == c
  {
    seq(n, _ => c)
  }

  function DigitChar(d: nat): char
    requires d < 10
  {
    ('0' as int + d) as char
  }

  /** The number a string of decimal digits denotes. */
  function DecimalValue(r: string): nat
    requires forall k :: 0 <= k < |r| ==> '0' <= r[k] <= '9'
  {
    if |r| == 0 then 0 else 10 * DecimalValue(r[..|r| - 1]) + (r[|r| - 1] as int - '0' as int)
  }

  /** `String(n)` for a non-negative integer: its decimal digits, without leading zeros. */
  function NatToString(n: nat): (r: string)
    ensures |r| >= 1
    ensures forall k :: 0 <= k < |r| ==> '0' <= r[k] <= '9'
    ensures DecimalValue(r) == n
    ensures r[0] == '0' ==> n == 0
  {
    if n < 10 then
      assert [DigitChar(n)][..0] == [];
      [DigitChar(n)]
    else
      var r := NatToString(n / 10) + [DigitChar(n % 10)];
      assert r[..|r| - 1] == NatToString(n / 10);
      r
  }

  /**
   * The UTF-16 code units of one character, which is what JavaScript strings are
   * made of: the character's own value below U+10000, a surrogate pair above.
   */
  function Utf16Units(c: char): (u: seq<int>)
    ensures |u| == (if c as int < 0x1_0000 then 1 else 2)
    ensures forall k :: 0 <= k < |u| ==> 0 <= u[k] < 0x1_0000
    ensures |u| == 2 ==> 0xD800 <= u[0] < 0xDC00 <= u[1] < 0xE000
  {
    var v := c as int;
    if v < 0x1_0000 then [v]
    else [0xD800 + (v - 0x1_0000) / 0x400, 0xDC00 + (v - 0x1_0000) % 0x400]
  }

  /** The character one unit, or one surrogate pair, stands for. */
  function DecodeUnits(u: seq<int>): int
    requires |u| == 1 || |u| == 2
  {
    if |u| == 1 then u[0] else 0x1_0000 + (u[0] - 0xD800) * 0x400 + (u[1] - 0xDC00)
  }

  /** Decoding a character's units gives the character back. */
  lemma Utf16UnitsRoundTrip(c: char)
    ensures DecodeUnits(Utf16Units(c)) == c as int
  {
    var v := c as int;
    if v >= 0x1_0000 {
      var w := v - 0x1_0000;
      assert (w / 0x400) * 0x400 + w % 0x400 == w;
    }
  }

  /** The UTF-16 code units of `s`, in order: what `charCodeAt` reads. */
  function Utf16(s: string): (u: seq<int>)
    ensures |s| <= |u| <= 2 * |s|
    decreases |s|
  {
    if |s| == 0 then [] else Utf16(s[..|s| - 1]) + Utf16Units(s[|s| - 1])
  }

  /** `s.length`: the number of UTF-16 code units. */
  function Utf16Length(s: string): (n: nat)
    ensures |s| <= n <= 2 * |s|
  {
    |Utf16(s)|
  }

  /** The units of a concatenation are the units of its parts. */
  lemma {:induction false} Utf16Append(a: string, b: string)
    ensures Utf16(a + b) == Utf16(a) + Utf16(b)
    decreases |b|
  {
    if |b| == 0 {
      assert a + b == a;
    } else {
      var b' := b[..|b| - 1];
      assert (a + b)[..|a + b| - 1] == a + b';
      assert (a + b)[|a + b| - 1] == b[|b| - 1];
      Utf16Append(a, b');
      AppendAssociates(Utf16(a), Utf16(b'), Utf16Units(b[|b| - 1]));
    }
  }

  /** The units of a string are those of its two halves, cut anywhere. */
  lemma Utf16Split(s: string, i: int)
    requires 0 <= i <= |s|
    ensures Utf16Length(s) == Utf16Length(s[..i]) + Utf16Length(s[i..])
  {
    Utf16Append(s[..i], s[i..]);
    assert s[..i] + s[i..] == s;
  }

  /** `length` agrees with the number of characters exactly when no character is above U+FFFF. */
  lemma {:induction false} Utf16LengthIsCount(s: string)
    ensures Utf16Length(s) == |s| <==> forall k :: 0 <= k < |s| ==> s[k] as int < 0x1_0000
    decreases |s|
  {
    if |s| > 0 {
      var t := s[..|s| - 1];
      Utf16LengthIsCount(t);
      assert forall k :: 0 <= k < |t| ==> t[k] == s[k];
    }
  }

  /** A string of ASCII characters, such as `c.repeat(n)` for an ASCII `c`, has one unit per character. */
  lemma {:induction false} Utf16LengthRepeat(c: char, n: nat)
    requires c as int < 0x80
    ensures Utf16Length(Repeat(c, n)) == n
  {
    Utf16LengthIsCount(Repeat(c, n));
  }

  /** A repeated character above U+FFFF, such as an emoji, has two units per repetition. */
  lemma {:induction false} Utf16LengthRepeatAstral(c: char, n: nat)
    requires c as int >= 0x1_0000
    ensures Utf16Length(Repeat(c, n)) == 2 * n
  {
    if n > 0 {
      assert Repeat(c, n)[..n - 1] == Repeat(c, n - 1);
      Utf16LengthRepeatAstral(c, n - 1);
    }
  }

  /** `String(n)` for an integer. */
  function IntToString(n: int): string {
    if n < 0 then "-" + NatToString(-n) else NatToString(n)
  }

  // ---------------------------------------------------------------------------
  // Facts about ReplaceAll used by the template substitutions.

  /** A string in which the pattern never occurs is left unchanged. */
  lemma {:induction false} ReplaceAllAbsent(s: string, pat: string, rep: string)
    requires |pat| > 0
    requires forall i: nat :: !OccursAt(s, pat, i)
    ensures ReplaceAll(s, pat, rep) == s
    decreases |s|
  {
    if |s| >= |pat| {
      assert !OccursAt(s, pat, 0);
      forall i: nat ensures !OccursAt(s[1..], pat, i) {
        if i + |pat| <= |s[1..]| {
          assert s[1..][i..i + |pat|] == s[i + 1..i + 1 + |pat|];
          assert !OccursAt(s, pat, i + 1);
        }
      }
      ReplaceAllAbsent(s[1..], pat, rep);
      assert [s[0]] + s[1..] == s;
    }
  }

  /** A prefix none of whose characters starts the pattern is copied as it is. */
  lemma {:induction false} ReplaceAllSkip(x: string, y: string, pat: string, rep: string)
    requires |pat| > 0
    requires pat[0] !in x
    ensures ReplaceAll(x + y, pat, rep) == x + ReplaceAll(y, pat, rep)
    decreases |x|
  {
    if |x| > 0 {
      var s := x + y;
      assert s[0] == x[0];
      if |s| >= |pat| {
        assert s[..|pat|][0] != pat[0];
        assert s[1..] == x[1..] + y;
        ReplaceAllSkip(x[1..], y, pat, rep);
        assert [x[0]] + x[1..] == x;
      } else {
        ReplaceAllAbsentShort(s, pat, rep);
        ReplaceAllAbsentShort(y, pat, rep);
      }
    } else {
      assert x + y == y;
    }
  }

  lemma ReplaceAllAbsentShort(s: string, pat: string, rep: string)
    requires 0 < |pat| && |s| < |pat|
    ensures ReplaceAll(s, pat, rep) == s
  {
  }

  /** An occurrence at the very start is replaced and the scan resumes after it. */
  lemma ReplaceAllHead(y: string, pat: string, rep: string)
    requires |pat| > 0
    ensures ReplaceAll(pat + y, pat, rep) == rep + ReplaceAll(y, pat, rep)
  {
    var s := pat + y;
    assert s[..|pat|] == pat;
    assert s[|pat|..] == y;
  }

  /**
   * A leading character that starts no occurrence (the pattern does not occur at
   * index 0) is copied and the scan continues at the next character.
   */
  lemma ReplaceAllStep(c: char, y: string, pat: string, rep: string)
    requires |pat| > 0
    requires !StartsWith([c] + y, pat)
    ensures ReplaceAll([c] + y, pat, rep) == [c] + ReplaceAll(y, pat, rep)
  {
    var s := [c] + y;
    assert s[1..] == y;
  }
}
