/**
 * Model-to-provider resolution (providers/model-resolver.ts): an exact lookup of
 * the normalised model name in a table of known models, then an ordered search of
 * case-insensitive prefix patterns tested on the raw name.
 */
module ModelResolver {

  import opened Wrappers
  import opened Strings

  datatype Provider = OpenAI | Anthropic | Google | XAI | Other

  /** The provider tag as it is written in configuration (`ProviderType`). */
  function ProviderName(p: Provider): (name: string) {
    match p
    case OpenAI => "openai"
    case Anthropic => "anthropic"
    case Google => "google"
    case XAI => "xai"
    case Other => "other"
  }

  /** The provider a configuration tag names, if it names one. */
  function ParseProvider(name: string): (r: Option<Provider>)
    ensures r.Some? ==> ProviderName(r.value) == name
    ensures forall p :: ProviderName(p) == name ==> r == Some(p)
  {
    if name == "openai" then Some(OpenAI)
    else if name == "anthropic" then Some(Anthropic)
    else if name == "google" then Some(Google)
    else if name == "xai" then Some(XAI)
    else if name == "other" then Some(Other)
    else None
  }

  /** The exact-match table, group by group as declared. */
  const OpenAIModels: seq<string> := [
    "gpt-4o", "gpt-4o-mini", "gpt-4-turbo", "gpt-4-turbo-preview", "gpt-4", "gpt-4-32k",
    "gpt-3.5-turbo", "gpt-3.5-turbo-16k", "o1-preview", "o1-mini", "o1", "o3-mini"]
  const AnthropicModels: seq<string> := [
    "claude-3-5-sonnet-20241022", "claude-3-5-sonnet-latest", "claude-3-5-haiku-20241022",
    "claude-3-opus-20240229", "claude-3-sonnet-20240229", "claude-3-haiku-20240307",
    "claude-2.1", "claude-2.0", "claude-instant-1.2"]
  const GoogleModels: seq<string> := [
    "gemini-2.5-pro", "gemini-2.5-flash", "gemini-2.0-flash-exp", "gemini-1.5-pro",
    "gemini-1.5-flash", "gemini-1.0-pro", "gemini-pro", "gemini-pro-vision"]
  const XAIModels: seq<string> := ["grok-beta", "grok-2-1212", "grok-2", "grok-1"]

  /** Pairs each name of a group with the group's provider. */
  function Tagged(names: seq<string>, p: Provider): (r: seq<(string, Provider)>)
    ensures |r| == |names|
    ensures forall i :: 0 <= i < |r| ==> r[i] == (names[i], p)
  {
    seq(|names|, i requires 0 <= i < |names| => (names[i], p))
  }

  /** `KNOWN_MODELS` as (name, provider) entries in declaration order. */
  const KnownModels: seq<(string, Provider)> :=
    Tagged(OpenAIModels, OpenAI) + Tagged(AnthropicModels, Anthropic)
    + Tagged(GoogleModels, Google) + Tagged(XAIModels, XAI)

  /** The providers in the order the pattern table lists them. */
  const PatternOrder: seq<Provider> := [OpenAI, Anthropic, Google, XAI, Other]

  /** The lower-case prefixes of the case-insensitive patterns of each provider. */
  function Patterns(p: Provider): seq<string> {
    match p
    case OpenAI => ["gpt-", "o1", "o3", "chatgpt", "text-davinci", "text-embedding", "whisper", "tts", "dall-e"]
    case Anthropic => ["claude"]
    case Google => ["gemini", "palm", "bard"]
    case XAI => ["grok"]
    case Other => []
  }

  /** The exact-table entry for `name`, first match in table order. */
  function LookupKnown(table: seq<(string, Provider)>, name: string): (r: Option<Provider>)
    ensures r.Some? ==> (name, r.value) in table
    ensures r.None? ==> forall i :: 0 <= i < |table| ==> table[i].0 != name
  {
    if |table| == 0 then None
    else if table[0].0 == name then Some(table[0].1)
    else LookupKnown(table[1..], name)
  }

  /** True when `s` starts with one of `prefixes`. */
  predicate StartsWithAny(s: string, prefixes: seq<string>) {
    |prefixes| > 0 && (StartsWith(s, prefixes[0]) || StartsWithAny(s, prefixes[1..]))
  }

  /** True when some pattern of `p` matches `model`, ignoring ASCII case. */
  predicate MatchesProvider(model: string, p: Provider) {
    StartsWithAny(Lower(model), Patterns(p))
  }

  /** The first provider, in `order`, with a pattern that matches `model`. */
  function FirstPatternMatch(model: string, order: seq<Provider>): (r: Option<Provider>)
    ensures r.Some? ==> r.value in order && MatchesProvider(model, r.value)
    ensures r.None? ==> forall p :: p in order ==> !MatchesProvider(model, p)
  {
    if |order| == 0 then None
    else if MatchesProvider(model, order[0]) then Some(order[0])
    else FirstPatternMatch(model, order[1..])
  }

  /** True when the lower-cased, trimmed `model` is a key of the exact table. */
  predicate ExactKey(model: string) {
    exists i :: 0 <= i < |KnownModels| && KnownModels[i].0 == Trim(Lower(model))
  }

  /**
   * `resolveModelProvider(model)`; `None` is the source's `null`. A provider comes
   * from the exact table entry of the normalised name, else from a pattern that
   * matches the name; null only for the empty name or a name neither finds.
   */
  function ResolveModelProvider(model: string): (r: Option<Provider>)
    ensures model == "" ==> r.None?
    ensures r.Some? ==> (Trim(Lower(model)), r.value) in KnownModels
                        || (!ExactKey(model) && MatchesProvider(model, r.value))
    ensures r.None? <==> model == "" || (!ExactKey(model) && forall p :: p in PatternOrder ==> !MatchesProvider(model, p))
  {
    if model == "" then None
    else
      var known := LookupKnown(KnownModels, Trim(Lower(model)));
      if known.Some? then known
      else FirstPatternMatch(model, PatternOrder)
  }

  /** `isModelFromProvider(model, provider)`: the name's table entry or, failing that, its patterns name `p`. */
  function IsModelFromProvider(model: string, p: Provider): (b: bool)
    ensures b ==> model != "" && ((Trim(Lower(model)), p) in KnownModels || MatchesProvider(model, p))
    ensures model != "" && !ExactKey(model) && MatchesProvider(model, p) ==> b
  {
    if model != "" && !ExactKey(model) && MatchesProvider(model, p) then
      assert p in PatternOrder;
      var r := ResolveModelProvider(model);
      PatternsDisjoint(Lower(model), p, r.value);
      r == Some(p)
    else
      ResolveModelProvider(model) == Some(p)
  }

  /** The known model names mapped to `p`, in table order (`getModelsForProvider`). */
  function ModelsFor(table: seq<(string, Provider)>, p: Provider): (r: seq<string>)
    ensures forall m :: m in r <==> (m, p) in table
    ensures |r| <= |table|
  {
    if |table| == 0 then []
    else if table[0].1 == p then [table[0].0] + ModelsFor(table[1..], p)
    else ModelsFor(table[1..], p)
  }

  function GetModelsForProvider(p: Provider): (r: seq<string>)
    ensures forall m :: m in r <==> (m, p) in KnownModels
  {
    ModelsFor(KnownModels, p)
  }

  /**
   * `getAllModelsByProvider`: every provider starts with an empty bucket, and each
   * table entry is pushed onto its provider's bucket in table order.
   */
  method GetAllModelsByProvider() returns (buckets: map<Provider, seq<string>>)
    ensures forall p :: p in buckets && buckets[p] == GetModelsForProvider(p)
  {
    buckets := Bucket(KnownModels);
  }

  /** The bucketing loop of `getAllModelsByProvider`, over any table. */
  method Bucket(table: seq<(string, Provider)>) returns (buckets: map<Provider, seq<string>>)
    ensures forall p :: p in buckets && buckets[p] == ModelsFor(table, p)
  {
    buckets := map[OpenAI := [], Anthropic := [], Google := [], XAI := [], Other := []];
    var i := 0;
    assert table[..0] == [];
    forall p ensures p in buckets && buckets[p] == ModelsFor(table[..0], p) {
      assert p == OpenAI || p == Anthropic || p == Google || p == XAI || p == Other;
    }
    while i < |table|
      invariant 0 <= i <= |table|
      invariant forall p :: p in buckets && buckets[p] == ModelsFor(table[..i], p)
    {
      var (model, provider) := table[i];
      ModelsForSnoc(table[..i], table[i]);
      assert table[..i + 1] == table[..i] + [table[i]];
      buckets := buckets[provider := buckets[provider] + [model]];
      i := i + 1;
    }
    assert table[..i] == table;
  }

  lemma {:induction false} ModelsForSnoc(table: seq<(string, Provider)>, entry: (string, Provider))
    ensures forall p :: (ModelsFor(table + [entry], p)
      == ModelsFor(table, p) + (if entry.1 == p then [entry.0] else []))
    decreases |table|
  {
    forall p ensures ModelsFor(table + [entry], p)
      == ModelsFor(table, p) + (if entry.1 == p then [entry.0] else [])
    {
      if |table| == 0 {
        assert table + [entry] == [entry];
        assert ([entry])[1..] == [];
      } else {
        assert (table + [entry])[1..] == table[1..] + [entry];
        ModelsForSnoc(table[1..], entry);
      }
    }
  }

  // ---------------------------------------------------------------------------
  // Properties.

  predicate NormalChar(c: char) {
    ('a' <= c <= 'z') || ('0' <= c <= '9') || c == '-' || c == '.'
  }

  /** Names made of lower-case ASCII letters, digits, '-' and '.', as every table key is. */
  predicate NormalName(s: string) {
    |s| > 0 && forall k :: 0 <= k < |s| ==> NormalChar(s[k])
  }

  /** Lower-casing and trimming leave a normal name unchanged. */
  lemma NormalisedUnchanged(name: string)
    requires NormalName(name)
    ensures Lower(name) == name
    ensures Trim(Lower(name)) == name
  {
    assert Lower(name) == name;
    assert !IsWhitespace(name[0]);
    assert !IsWhitespace(name[|name| - 1]);
  }

  /** A table key that is a normal name matched by the patterns of the provider it is mapped to. */
  predicate Agrees(name: string, p: Provider) {
    NormalName(name) && StartsWithAny(name, Patterns(p))
  }

  /** Each entry of a group agrees with the group's provider. */
  predicate GroupAgrees(names: seq<string>, p: Provider) {
    forall i :: 0 <= i < |names| ==> Agrees(names[i], p)
  }

  // The table's names are checked a few at a time: each lemma below states the
  // agreement of one family of literal names.

  /** The GPT-4o names agree with their provider. */
  lemma GptFourONames()
    ensures Agrees("gpt-4o", OpenAI)
    ensures Agrees("gpt-4o-mini", OpenAI)
  {
  }

  /** The GPT-4 Turbo names agree with their provider. */
  lemma GptFourTurboNames()
    ensures Agrees("gpt-4-turbo", OpenAI)
    ensures Agrees("gpt-4-turbo-preview", OpenAI)
  {
  }

  /** The GPT-4 names agree with their provider. */
  lemma GptFourNames()
    ensures Agrees("gpt-4", OpenAI)
    ensures Agrees("gpt-4-32k", OpenAI)
  {
  }

  /** The GPT-3.5 names agree with their provider. */
  lemma GptThreeFiveNames()
    ensures Agrees("gpt-3.5-turbo", OpenAI)
    ensures Agrees("gpt-3.5-turbo-16k", OpenAI)
  {
  }

  /** The o1 preview and mini names agree with their provider. */
  lemma OneSeriesNames()
    ensures Agrees("o1-preview", OpenAI)
    ensures Agrees("o1-mini", OpenAI)
  {
  }

  /** The o1 and o3 names agree with their provider. */
  lemma ReasoningNames()
    ensures Agrees("o1", OpenAI)
    ensures Agrees("o3-mini", OpenAI)
  {
  }

  /** The Claude 3.5 Sonnet names agree with their provider. */
  lemma ClaudeSonnetNames()
    ensures Agrees("claude-3-5-sonnet-20241022", Anthropic)
    ensures Agrees("claude-3-5-sonnet-latest", Anthropic)
  {
  }

  /** The Claude Haiku names agree with their provider. */
  lemma ClaudeHaikuNames()
    ensures Agrees("claude-3-5-haiku-20241022", Anthropic)
    ensures Agrees("claude-3-haiku-20240307", Anthropic)
  {
  }

  /** The Claude 3 Opus and Sonnet names agree with their provider. */
  lemma ClaudeThreeNames()
    ensures Agrees("claude-3-opus-20240229", Anthropic)
    ensures Agrees("claude-3-sonnet-20240229", Anthropic)
  {
  }

  /** The Claude 2 and Instant names agree with their provider. */
  lemma ClaudeEarlierNames()
    ensures Agrees("claude-2.1", Anthropic)
    ensures Agrees("claude-2.0", Anthropic)
    ensures Agrees("claude-instant-1.2", Anthropic)
  {
  }

  /** The Gemini 2 names agree with their provider. */
  lemma GeminiTwoNames()
    ensures Agrees("gemini-2.5-pro", Google)
    ensures Agrees("gemini-2.5-flash", Google)
    ensures Agrees("gemini-2.0-flash-exp", Google)
  {
  }

  /** The Gemini 1 names agree with their provider. */
  lemma GeminiOneNames()
    ensures Agrees("gemini-1.5-pro", Google)
    ensures Agrees("gemini-1.5-flash", Google)
    ensures Agrees("gemini-1.0-pro", Google)
  {
  }

  /** The unversioned Gemini names agree with their provider. */
  lemma GeminiProNames()
    ensures Agrees("gemini-pro", Google)
    ensures Agrees("gemini-pro-vision", Google)
  {
  }

  /** The Grok names agree with their provider. */
  lemma GrokNames()
    ensures Agrees("grok-beta", XAI)
    ensures Agrees("grok-2-1212", XAI)
    ensures Agrees("grok-2", XAI)
    ensures Agrees("grok-1", XAI)
  {
  }

  lemma OpenAIGroupAgrees() ensures GroupAgrees(OpenAIModels, OpenAI) {
    GptFourONames();
    GptFourTurboNames();
    GptFourNames();
    GptThreeFiveNames();
    OneSeriesNames();
    ReasoningNames();
  }

  lemma AnthropicGroupAgrees() ensures GroupAgrees(AnthropicModels, Anthropic) {
    ClaudeSonnetNames();
    ClaudeHaikuNames();
    ClaudeThreeNames();
    ClaudeEarlierNames();
  }

  lemma GoogleGroupAgrees() ensures GroupAgrees(GoogleModels, Google) {
    GeminiTwoNames();
    GeminiOneNames();
    GeminiProNames();
  }

  lemma XAIGroupAgrees() ensures GroupAgrees(XAIModels, XAI) {
    GrokNames();
  }

  /**
   * The exact table agrees with the patterns: every key is already normalised and
   * is matched by a pattern of the provider it is mapped to.
   */
  lemma {:induction false} TableAgreesWithPatterns(name: string, p: Provider)
    requires (name, p) in KnownModels
    ensures NormalName(name)
    ensures MatchesProvider(name, p)
  {
    OpenAIGroupAgrees();
    AnthropicGroupAgrees();
    GoogleGroupAgrees();
    XAIGroupAgrees();
    var i :| 0 <= i < |KnownModels| && KnownModels[i] == (name, p);
    var o, a, g := |OpenAIModels|, |AnthropicModels|, |GoogleModels|;
    if i < o {
      assert KnownModels[i] == (OpenAIModels[i], OpenAI);
    } else if i < o + a {
      assert KnownModels[i] == (AnthropicModels[i - o], Anthropic);
    } else if i < o + a + g {
      assert KnownModels[i] == (GoogleModels[i - o - a], Google);
    } else {
      assert KnownModels[i] == (XAIModels[i - o - a - g], XAI);
    }
    NormalisedUnchanged(name);
  }

  /** Patterns of distinct providers never match the same name. */
  lemma {:induction false} PatternsDisjoint(s: string, p: Provider, q: Provider)
    requires StartsWithAny(s, Patterns(p)) && StartsWithAny(s, Patterns(q))
    ensures p == q
  {
    PatternsHaveTwoChars(p);
    PatternsHaveTwoChars(q);
    var kp := FirstTwo(s, Patterns(p), LeadKeys(p));
    var kq := FirstTwo(s, Patterns(q), LeadKeys(q));
    LeadKeysDisjoint(p, q, kp);
  }

  /** The two leading characters of each provider's patterns. */
  function LeadKeys(p: Provider): seq<string> {
    match p
    case OpenAI => ["gp", "o1", "o3", "ch", "te", "wh", "tt", "da"]
    case Anthropic => ["cl"]
    case Google => ["ge", "pa", "ba"]
    case XAI => ["gr"]
    case Other => []
  }

  lemma PatternsHaveTwoChars(p: Provider)
    ensures forall k :: 0 <= k < |Patterns(p)| ==> |Patterns(p)[k]| >= 2 && Patterns(p)[k][..2] in LeadKeys(p)
  {
    var ps, ks := Patterns(p), LeadKeys(p);
    forall k | 0 <= k < |ps| ensures |ps[k]| >= 2 && ps[k][..2] in ks {
      var lead := ps[k][..2];
      assert lead == [ps[k][0], ps[k][1]];
    }
  }

  lemma LeadKeysDisjoint(p: Provider, q: Provider, key: string)
    requires key in LeadKeys(p) && key in LeadKeys(q)
    ensures p == q
  {
  }

  /** The two leading characters of the pattern that matches; all patterns are at least that long. */
  lemma {:induction false} FirstTwo(s: string, pats: seq<string>, keys: seq<string>) returns (key: string)
    requires forall k :: 0 <= k < |pats| ==> |pats[k]| >= 2 && pats[k][..2] in keys
    requires StartsWithAny(s, pats)
    ensures key in keys
    ensures |s| >= 2 && key == s[..2]
    decreases |pats|
  {
    if StartsWith(s, pats[0]) {
      key := pats[0][..2];
      assert s[..2] == s[..|pats[0]|][..2];
    } else {
      assert forall k :: 0 <= k < |pats[1..]| ==> pats[1..][k] == pats[k + 1];
      key := FirstTwo(s, pats[1..], keys);
    }
  }

  /** The empty model name resolves to nothing. */
  lemma ResolveEmpty()
    ensures ResolveModelProvider("") == None
  {
  }

  /** No name ever resolves to `other`: the table never maps to it and it has no pattern. */
  lemma {:induction false} ResolveNeverOther(model: string)
    ensures ResolveModelProvider(model) != Some(Other)
  {
    if model != "" {
      var norm := Trim(Lower(model));
      var known := LookupKnown(KnownModels, norm);
      if known == Some(Other) {
        TableAgreesWithPatterns(norm, Other);
      }
    }
  }

  /** Every key of the table resolves to the provider the table maps it to. */
  lemma {:induction false} KnownModelsResolve(name: string, p: Provider)
    requires (name, p) in KnownModels
    ensures ResolveModelProvider(name) == Some(p)
  {
    TableAgreesWithPatterns(name, p);
    NormalisedUnchanged(name);
    var i :| 0 <= i < |KnownModels| && KnownModels[i] == (name, p);
    var found := LookupKnown(KnownModels, name);
    assert found.Some?;
    TableAgreesWithPatterns(name, found.value);
    PatternsDisjoint(name, p, found.value);
  }

  /** Examples from the table: Claude, Gemini, Grok and GPT names. */
  lemma KnownExamples()
    ensures ResolveModelProvider("claude-3-5-sonnet-latest") == Some(Anthropic)
    ensures ResolveModelProvider("gemini-1.5-pro") == Some(Google)
    ensures ResolveModelProvider("grok-2") == Some(XAI)
    ensures ResolveModelProvider("gpt-4o") == Some(OpenAI)
  {
    var o, a, g := |OpenAIModels|, |AnthropicModels|, |GoogleModels|;
    assert KnownModels[o + 1] == ("claude-3-5-sonnet-latest", Anthropic);
    KnownModelsResolve("claude-3-5-sonnet-latest", Anthropic);
    assert KnownModels[o + a + 3] == ("gemini-1.5-pro", Google);
    KnownModelsResolve("gemini-1.5-pro", Google);
    assert KnownModels[o + a + g + 2] == ("grok-2", XAI);
    KnownModelsResolve("grok-2", XAI);
    assert KnownModels[0] == ("gpt-4o", OpenAI);
    KnownModelsResolve("gpt-4o", OpenAI);
  }

  /** "gpt-4o" is in the table as an OpenAI model. */
  lemma GptFourOKnown()
    ensures LookupKnown(KnownModels, "gpt-4o") == Some(OpenAI)
  {
    assert KnownModels[0] == ("gpt-4o", OpenAI);
  }

  /** Exact lookup lower-cases the name first: "GPT-4o" is OpenAI. */
  lemma UpperCaseNameResolves()
    ensures ResolveModelProvider("GPT-4o") == Some(OpenAI)
  {
    GptFourOKnown();
    NormalisedUnchanged("gpt-4o");
    assert Lower("GPT-4o") == "gpt-4o";
  }

  /** Exact lookup trims the name first: " gpt-4o " is OpenAI. */
  lemma PaddedNameResolves()
    ensures ResolveModelProvider(" gpt-4o ") == Some(OpenAI)
  {
    GptFourOKnown();
    assert Lower(" gpt-4o ") == " gpt-4o ";
    assert TrimStart(" gpt-4o ") == "gpt-4o ";
    assert TrimEnd("gpt-4o ") == "gpt-4o";
  }

  /** A name no table key equals is looked up as absent. */
  lemma {:induction false} NotKnown(name: string)
    requires name !in OpenAIModels && name !in AnthropicModels
    requires name !in GoogleModels && name !in XAIModels
    ensures LookupKnown(KnownModels, name) == None
  {
    var o, a, g := |OpenAIModels|, |AnthropicModels|, |GoogleModels|;
    forall i | 0 <= i < |KnownModels| ensures KnownModels[i].0 != name {
      if i < o {
        assert KnownModels[i].0 == OpenAIModels[i];
      } else if i < o + a {
        assert KnownModels[i].0 == AnthropicModels[i - o];
      } else if i < o + a + g {
        assert KnownModels[i].0 == GoogleModels[i - o - a];
      } else {
        assert KnownModels[i].0 == XAIModels[i - o - a - g];
      }
    }
  }

  /** The pattern fallback handles names missing from the table: "gpt-5" is OpenAI. */
  lemma UnknownGptIsOpenAI()
    ensures ResolveModelProvider("gpt-5") == Some(OpenAI)
  {
    GptFiveUnlisted();
    assert StartsWith(Lower("gpt-5"), "gpt-");
  }

  /** "gpt-5" is already normalised, and no key of the table equals it. */
  lemma GptFiveUnlisted()
    ensures Lower("gpt-5") == "gpt-5"
    ensures Trim(Lower("gpt-5")) == "gpt-5"
    ensures LookupKnown(KnownModels, "gpt-5") == None
  {
    assert NormalName("gpt-5");
    NormalisedUnchanged("gpt-5");
    GptFiveNotAKey();
    NotKnown("gpt-5");
  }

  lemma GptFiveNotAKey()
    ensures "gpt-5" !in OpenAIModels && "gpt-5" !in AnthropicModels
    ensures "gpt-5" !in GoogleModels && "gpt-5" !in XAIModels
  {
  }

  /** A name whose first two characters, lower-cased, start no pattern matches no provider. */
  lemma {:induction false} NoLeadKeyNoMatch(model: string)
    requires |Lower(model)| < 2 || forall p :: Lower(model)[..2] !in LeadKeys(p)
    ensures FirstPatternMatch(model, PatternOrder) == None
  {
    forall p ensures !MatchesProvider(model, p) {
      if MatchesProvider(model, p) {
        PatternsHaveTwoChars(p);
        var key := FirstTwo(Lower(model), Patterns(p), LeadKeys(p));
      }
    }
  }

  /** Patterns test the raw name, so a leading blank defeats them: " gpt-5" resolves to nothing. */
  lemma LeadingBlankDefeatsPatterns()
    ensures ResolveModelProvider(" gpt-5") == None
  {
    assert Lower(" gpt-5") == " gpt-5";
    assert TrimStart(" gpt-5") == "gpt-5";
    GptFiveUnlisted();
    assert Lower(" gpt-5")[..2] == " g";
    NoLeadKeyNoMatch(" gpt-5");
  }

  /** A name neither in the table nor matching a pattern, such as "unknown-model-xyz", resolves to nothing. */
  lemma UnknownModelResolvesToNothing()
    ensures ResolveModelProvider("unknown-model-xyz") == None
  {
    var u := "unknown-model-xyz";
    UnknownNameUnlisted();
    assert Lower(u)[..2] == "un";
    NoLeadKeyNoMatch(u);
  }

  /** "unknown-model-xyz" is already normalised, and no key of the table equals it. */
  lemma UnknownNameUnlisted()
    ensures Trim(Lower("unknown-model-xyz")) == "unknown-model-xyz"
    ensures LookupKnown(KnownModels, "unknown-model-xyz") == None
  {
    assert NormalName("unknown-model-xyz");
    NormalisedUnchanged("unknown-model-xyz");
    UnknownNameNotAKey();
    NotKnown("unknown-model-xyz");
  }

  lemma UnknownNameNotAKey()
    ensures "unknown-model-xyz" !in OpenAIModels && "unknown-model-xyz" !in AnthropicModels
    ensures "unknown-model-xyz" !in GoogleModels && "unknown-model-xyz" !in XAIModels
  {
  }

  /** Patterns are tried in order: any name starting with "claude" that is not in the table is Anthropic. */
  lemma {:induction false} ClaudePrefixIsAnthropic(model: string)
    requires StartsWith(Lower(model), "claude")
    requires LookupKnown(KnownModels, Trim(Lower(model))) == None
    ensures ResolveModelProvider(model) == Some(Anthropic)
  {
    assert StartsWithAny(Lower(model), Patterns(Anthropic));
    if MatchesProvider(model, OpenAI) {
      PatternsDisjoint(Lower(model), OpenAI, Anthropic);
    }
    assert |model| >= 6;
    assert PatternOrder[0] == OpenAI && PatternOrder[1..][0] == Anthropic;
    assert FirstPatternMatch(model, PatternOrder[1..]) == Some(Anthropic);
  }

  /** `isModelFromProvider(m, p)` holds exactly when `m` resolves to `p`; never for `other`. */
  lemma IsModelFromProviderIff(model: string, p: Provider)
    ensures IsModelFromProvider(model, p) <==> ResolveModelProvider(model) == Some(p)
    ensures !IsModelFromProvider(model, Other)
  {
    ResolveNeverOther(model);
  }

  /** The `other` bucket of `getAllModelsByProvider` is empty: no table entry maps to `other`. */
  lemma {:induction false} OtherBucketEmpty()
    ensures GetModelsForProvider(Other) == []
  {
    var others := GetModelsForProvider(Other);
    if |others| > 0 {
      assert others[0] in others;
      TableAgreesWithPatterns(others[0], Other);
    }
  }

  /**
   * The buckets partition the table: each known name is in the bucket of its
   * provider and in no other.
   */
  lemma {:induction false} BucketsPartition(name: string, p: Provider, q: Provider)
    requires (name, p) in KnownModels
    ensures name in GetModelsForProvider(q) <==> q == p
  {
    var bucket := GetModelsForProvider(q);
    assert name in bucket <==> (name, q) in KnownModels;
    TableAgreesWithPatterns(name, p);
    NormalisedUnchanged(name);
    if (name, q) in KnownModels {
      TableAgreesWithPatterns(name, q);
      PatternsDisjoint(name, p, q);
    }
  }
}
