/**
 * Model-card normalisation for provider model lists: keyword matching with `^` (anchored)
 * and `!` (exclusion) prefixes, provider detection from the model id, the `releasedAt`
 * choice, `displayName` clean-up, ability and type defaults, and the single- and
 * multi-provider list wrappers.
 *
 * The provider model catalogues and the default model list are passed in as lists of
 * known models; the timestamp-to-date formatter is a parameter.
 */
module ModelParse {
  import opened Wrappers
  import opened Strings

  datatype ProcessorConfig = ProcessorConfig(
    excludeKeywords: seq<string>,
    functionCallKeywords: seq<string>,
    reasoningKeywords: seq<string>,
    visionKeywords: seq<string>)

  /** The ability keywords of each provider family. */
  const ModelListConfigs: map<string, ProcessorConfig> := map[
    "anthropic" := ProcessorConfig([], ["claude"], ["-3-7", "3.7", "-4"], ["claude"]),
    "deepseek" := ProcessorConfig([], ["v3", "r1"], ["r1"], []),
    "google" := ProcessorConfig([], ["gemini"], ["thinking", "-2.5-"], ["gemini", "learnlm"]),
    "llama" := ProcessorConfig([], ["llama-3.2", "llama-3.3", "llama-4"], [], ["llava"]),
    "moonshot" := ProcessorConfig([], ["moonshot", "kimi"], ["thinking"], ["vision", "kimi-latest", "kimi-thinking-preview"]),
    "openai" := ProcessorConfig(["audio"], ["4o", "4.1", "o3", "o4", "oss"], ["o1", "o3", "o4", "oss"], ["4o", "4.1", "o4"]),
    "qwen" := ProcessorConfig([],
                ["qwen-max", "qwen-plus", "qwen-turbo", "qwen-long", "qwen1.5", "qwen2", "qwen2.5", "qwen3"],
                ["qvq", "qwq", "qwen3", "!-instruct-", "!-coder-"], ["qvq", "vl"]),
    "v0" := ProcessorConfig([], ["v0"], ["v0-1.5"], ["v0"]),
    "volcengine" := ProcessorConfig([], ["1.5", "1-5", "1.6", "1-6"], ["thinking", "seed", "ui-tars"],
                      ["vision", "-m", "seed", "ui-tars"]),
    "xai" := ProcessorConfig([], ["grok"], ["mini", "grok-4"], ["vision", "grok-4"]),
    "zeroone" := ProcessorConfig([], ["fc"], [], ["vision"]),
    "zhipu" := ProcessorConfig([], ["glm-4", "glm-z1"], ["glm-zero", "glm-z1", "glm-4.5"], ["glm-4v", "glm-4.1v", "glm-4.5v"])
  ]

  datatype ProviderKeywords = ProviderKeywords(provider: string, keywords: seq<string>)

  /** The provider detection keywords, in the order they are tried. */
  const ProviderDetectionConfig: seq<ProviderKeywords> := [
    ProviderKeywords("anthropic", ["claude"]),
    ProviderKeywords("deepseek", ["deepseek"]),
    ProviderKeywords("google", ["gemini", "imagen"]),
    ProviderKeywords("llama", ["llama", "llava"]),
    ProviderKeywords("moonshot", ["moonshot", "kimi"]),
    ProviderKeywords("openai", ["o1", "o3", "o4", "gpt-"]),
    ProviderKeywords("qwen", ["qwen", "qwq", "qvq"]),
    ProviderKeywords("v0", ["v0"]),
    ProviderKeywords("volcengine", ["doubao"]),
    ProviderKeywords("xai", ["grok"]),
    ProviderKeywords("zeroone", ["yi-"]),
    ProviderKeywords("zhipu", ["glm"])
  ]

  const ImageModelKeywords: seq<string> := [
    "dall-e", "dalle", "midjourney", "stable-diffusion", "sd", "flux", "imagen", "firefly", "cogview",
    "wanxiang", "DESCRIBE", "UPSCALE", "-image", "^V3", "^V_2", "^V_1"
  ]

  // ---------------------------------------------------------------------------
  // Keyword matching

  /** One keyword without its `!`: `^kw` is a prefix test, anything else a substring test. */
  predicate PatternMatches(id: string, p: string) {
    if StartsWith(p, "^") then StartsWith(id, p[1..]) else Contains(id, p)
  }

  predicate IsExclude(keyword: string) {
    StartsWith(keyword, "!")
  }

  predicate ExcludeHit(id: string, keyword: string) {
    IsExclude(keyword) && PatternMatches(id, keyword[1..])
  }

  predicate IncludeHit(id: string, keyword: string) {
    !IsExclude(keyword) && PatternMatches(id, keyword)
  }

  /** No exclusion keyword matches and some inclusion keyword does. */
  predicate KeywordListMatch(id: string, keywords: seq<string>) {
    (forall k :: k in keywords ==> !ExcludeHit(id, k)) && (exists k :: k in keywords && IncludeHit(id, k))
  }

  /** `keywords.filter(k => k.startsWith('!'))`. */
  function Excludes(keywords: seq<string>): (r: seq<string>)
    ensures forall k :: k in r <==> k in keywords && IsExclude(k)
    ensures forall j :: 0 <= j < |r| ==> IsExclude(r[j])
  {
    if |keywords| == 0 then []
    else if IsExclude(keywords[0]) then [keywords[0]] + Excludes(keywords[1..])
    else Excludes(keywords[1..])
  }

  /** `keywords.filter(k => !k.startsWith('!'))`. */
  function Includes(keywords: seq<string>): (r: seq<string>)
    ensures forall k :: k in r <==> k in keywords && !IsExclude(k)
  {
    if |keywords| == 0 then []
    else if !IsExclude(keywords[0]) then [keywords[0]] + Includes(keywords[1..])
    else Includes(keywords[1..])
  }

  /** `isKeywordListMatch`: the exclusion scan with early return, then `some` over the inclusions. */
  method IsKeywordListMatch(modelId: string, keywords: seq<string>) returns (r: bool)
    ensures r == KeywordListMatch(modelId, keywords)
  {
    var excludeKeywords := Excludes(keywords);
    var includeKeywords := Includes(keywords);
    for i := 0 to |excludeKeywords|
      invariant forall j :: 0 <= j < i ==> !ExcludeHit(modelId, excludeKeywords[j])
    {
      var keywordWithoutPrefix := excludeKeywords[i][1..];
      var isMatch := if StartsWith(keywordWithoutPrefix, "^") then StartsWith(modelId, keywordWithoutPrefix[1..])
                     else Contains(modelId, keywordWithoutPrefix);
      if isMatch {
        assert ExcludeHit(modelId, excludeKeywords[i]);
        return false;
      }
    }
    assert forall k :: k in keywords ==> !ExcludeHit(modelId, k) by {
      forall k | k in keywords && IsExclude(k) ensures !ExcludeHit(modelId, k) {
        assert k in excludeKeywords;
      }
    }
    for i := 0 to |includeKeywords|
      invariant forall j :: 0 <= j < i ==> !IncludeHit(modelId, includeKeywords[j])
    {
      var keyword := includeKeywords[i];
      var isMatch := if StartsWith(keyword, "^") then StartsWith(modelId, keyword[1..]) else Contains(modelId, keyword);
      if isMatch {
        assert keyword in includeKeywords;
        assert IncludeHit(modelId, keyword);
        return true;
      }
    }
    assert !exists k :: k in keywords && IncludeHit(modelId, k) by {
      forall k | k in keywords && !IsExclude(k) ensures !IncludeHit(modelId, k) {
        assert k in includeKeywords;
      }
    }
    return false;
  }

  /** A matching exclusion keyword makes the match false whatever the inclusion keywords say. */
  lemma ExclusionWins(id: string, keywords: seq<string>, k: string)
    requires k in keywords && ExcludeHit(id, k)
    ensures !KeywordListMatch(id, keywords)
  {
  }

  /** A list without inclusion keywords never matches. */
  lemma NoIncludesNeverMatch(id: string, keywords: seq<string>)
    requires forall k :: k in keywords ==> IsExclude(k)
    ensures !KeywordListMatch(id, keywords)
  {
  }

  /** A single `^kw` keyword is a prefix test, and `!^kw` excludes exactly the ids with that prefix. */
  lemma AnchoredKeyword(id: string, kw: string, others: seq<string>)
    requires forall k :: k in others ==> !IsExclude(k)
    ensures KeywordListMatch(id, ["^" + kw]) <==> StartsWith(id, kw)
    ensures KeywordListMatch(id, ["!^" + kw] + others) <==> !StartsWith(id, kw) && KeywordListMatch(id, others)
  {
    var a := "^" + kw;
    assert StartsWith(a, "^") && a[1..] == kw;
    assert !IsExclude(a);
    assert forall k :: k in [a] <==> k == a;
    assert IncludeHit(id, a) <==> StartsWith(id, kw);
    assert KeywordListMatch(id, [a]) <==> IncludeHit(id, a);
    var b := "!^" + kw;
    assert IsExclude(b) && b[1..] == a;
    assert ExcludeHit(id, b) <==> StartsWith(id, kw);
    assert !IncludeHit(id, b);
    var l := [b] + others;
    assert forall k :: k in l <==> k == b || k in others;
    assert forall k :: k in others ==> !ExcludeHit(id, k);
  }

  /** A single plain keyword is a substring test. */
  lemma PlainKeyword(id: string, kw: string)
    requires !StartsWith(kw, "!") && !StartsWith(kw, "^")
    ensures KeywordListMatch(id, [kw]) <==> Contains(id, kw)
  {
    assert forall k :: k in [kw] <==> k == kw;
    assert IncludeHit(id, kw) <==> Contains(id, kw);
  }

  // ---------------------------------------------------------------------------
  // Provider detection

  /** The first provider from index `i` on whose keywords match a configured provider, else `openai`. */
  function DetectFrom(lowerId: string, i: nat): (r: string)
    requires i <= |ProviderDetectionConfig|
    decreases |ProviderDetectionConfig| - i
  {
    if i == |ProviderDetectionConfig| then "openai"
    else
      var entry := ProviderDetectionConfig[i];
      if KeywordListMatch(lowerId, entry.keywords) && entry.provider in ModelListConfigs then entry.provider
      else DetectFrom(lowerId, i + 1)
  }

  /** The provider family of a model id. */
  function DetectedProvider(modelId: string): (r: string)
    ensures r in ModelListConfigs
  {
    DetectedFromIsConfigured(ToLower(modelId), 0);
    DetectFrom(ToLower(modelId), 0)
  }

  lemma {:induction false} DetectedFromIsConfigured(lowerId: string, i: nat)
    requires i <= |ProviderDetectionConfig|
    ensures DetectFrom(lowerId, i) in ModelListConfigs
    decreases |ProviderDetectionConfig| - i
  {
    if i < |ProviderDetectionConfig| {
      DetectedFromIsConfigured(lowerId, i + 1);
    } else {
      assert "openai" in ModelListConfigs;
    }
  }

  /** `detectModelProvider`: the loop over the detection table with early return. */
  method DetectModelProvider(modelId: string) returns (provider: string)
    ensures provider == DetectedProvider(modelId)
    ensures provider in ModelListConfigs
  {
    var lowerModelId := ToLower(modelId);
    var i := 0;
    while i < |ProviderDetectionConfig|
      invariant 0 <= i <= |ProviderDetectionConfig|
      invariant DetectFrom(lowerModelId, i) == DetectedProvider(modelId)
    {
      var entry := ProviderDetectionConfig[i];
      var hasKeyword := IsKeywordListMatch(lowerModelId, entry.keywords);
      if hasKeyword && entry.provider in ModelListConfigs {
        return entry.provider;
      }
      i := i + 1;
    }
    return "openai";
  }

  lemma {:induction false} DetectFromFirst(lowerId: string, i: nat, k: nat)
    requires i <= k < |ProviderDetectionConfig|
    requires KeywordListMatch(lowerId, ProviderDetectionConfig[k].keywords)
    requires ProviderDetectionConfig[k].provider in ModelListConfigs
    requires forall j :: i <= j < k ==> !KeywordListMatch(lowerId, ProviderDetectionConfig[j].keywords)
    ensures DetectFrom(lowerId, i) == ProviderDetectionConfig[k].provider
    decreases k - i
  {
    if i < k {
      DetectFromFirst(lowerId, i + 1, k);
    }
  }

  /** The detected provider is the first one in table order whose keywords match the lower-cased id. */
  lemma DetectFirstMatch(modelId: string, k: nat)
    requires k < |ProviderDetectionConfig|
    requires KeywordListMatch(ToLower(modelId), ProviderDetectionConfig[k].keywords)
    requires forall j :: 0 <= j < k ==> !KeywordListMatch(ToLower(modelId), ProviderDetectionConfig[j].keywords)
    ensures DetectedProvider(modelId) == ProviderDetectionConfig[k].provider
  {
    assert ProviderDetectionConfig[k].provider in ModelListConfigs;
    DetectFromFirst(ToLower(modelId), 0, k);
  }

  lemma {:induction false} DetectFromNone(lowerId: string, i: nat)
    requires i <= |ProviderDetectionConfig|
    requires forall j :: i <= j < |ProviderDetectionConfig| ==> !KeywordListMatch(lowerId, ProviderDetectionConfig[j].keywords)
    ensures DetectFrom(lowerId, i) == "openai"
    decreases |ProviderDetectionConfig| - i
  {
    if i < |ProviderDetectionConfig| {
      DetectFromNone(lowerId, i + 1);
    }
  }

  /** An id matching no provider's keywords is treated as an OpenAI model. */
  lemma DetectDefault(modelId: string)
    requires forall j :: 0 <= j < |ProviderDetectionConfig| ==> !KeywordListMatch(ToLower(modelId), ProviderDetectionConfig[j].keywords)
    ensures DetectedProvider(modelId) == "openai"
  {
    DetectFromNone(ToLower(modelId), 0);
  }

  lemma LowerCharIdempotent(c: char)
    ensures LowerChar(LowerChar(c)) == LowerChar(c)
  {
  }

  /** Detection ignores ASCII case. */
  lemma DetectIgnoresCase(modelId: string)
    ensures DetectedProvider(ToLower(modelId)) == DetectedProvider(modelId)
  {
    var l := ToLower(modelId);
    forall i | 0 <= i < |l| ensures ToLower(l)[i] == l[i] {
      LowerCharIdempotent(modelId[i]);
    }
    assert ToLower(l) == l;
  }

  /** Any id containing `claude`, in any ASCII case, is an Anthropic model. */
  lemma DetectClaude(modelId: string)
    requires Contains(ToLower(modelId), "claude")
    ensures DetectedProvider(modelId) == "anthropic"
  {
    var l := ToLower(modelId);
    assert ProviderDetectionConfig[0].keywords == ["claude"];
    assert IncludeHit(l, "claude") by {
      assert !StartsWith("claude", "!") && !StartsWith("claude", "^");
    }
    assert forall k :: k in ["claude"] ==> k == "claude";
    assert KeywordListMatch(l, ["claude"]);
    DetectFirstMatch(modelId, 0);
  }

  // ---------------------------------------------------------------------------
  // Model cards

  datatype Abilities = Abilities(functionCall: Option<bool>, reasoning: Option<bool>, vision: Option<bool>)

  /** Image generation parameters; only their presence matters here. */
  type Parameters = map<string, string>

  /** An entry of a provider catalogue or of the default model list. */
  datatype KnownModel = KnownModel(
    id: string,
    modelType: Option<string>,
    parameters: Option<Parameters>,
    contextWindowTokens: Option<nat>,
    description: Option<string>,
    displayName: Option<string>,
    abilities: Option<Abilities>,
    maxOutput: Option<nat>,
    releasedAt: Option<string>)

  /** The `created` field of a listed model: absent, a number, a string or some other value. */
  datatype Created = NoCreated | CreatedNumber(seconds: int) | CreatedString(text: string) | CreatedOther

  /** A model as a provider's list endpoint reports it. */
  datatype RawModel = RawModel(
    id: string,
    modelType: Option<string>,
    parameters: Option<Parameters>,
    contextWindowTokens: Option<nat>,
    description: Option<string>,
    displayName: Option<string>,
    enabled: Option<bool>,
    functionCall: Option<bool>,
    reasoning: Option<bool>,
    vision: Option<bool>,
    maxOutput: Option<nat>,
    created: Created,
    releasedAt: Option<string>)

  datatype ChatModelCard = ChatModelCard(
    contextWindowTokens: Option<nat>,
    description: string,
    displayName: string,
    enabled: bool,
    functionCall: bool,
    id: string,
    maxOutput: Option<nat>,
    reasoning: bool,
    releasedAt: Option<string>,
    modelType: string,
    parameters: Option<Parameters>,
    vision: bool)

  /** Truthiness of an optional string. */
  predicate Truthy(s: Option<string>) {
    s.Some? && s.value != ""
  }

  /** The `YYYY-MM-DDThh:mm:ssZ` form (RFC 3339 section 5.6, whole seconds, UTC). */
  predicate IsSecondStamp(s: string) {
    |s| == 20
    && IsDigit(s[0]) && IsDigit(s[1]) && IsDigit(s[2]) && IsDigit(s[3]) && s[4] == '-'
    && IsDigit(s[5]) && IsDigit(s[6]) && s[7] == '-' && IsDigit(s[8]) && IsDigit(s[9])
    && s[10] == 'T' && IsDigit(s[11]) && IsDigit(s[12]) && s[13] == ':' && IsDigit(s[14]) && IsDigit(s[15])
    && s[16] == ':' && IsDigit(s[17]) && IsDigit(s[18]) && s[19] == 'Z'
  }

  /** `processReleasedAt`. */
  function ReleasedAt(model: RawModel, known: Option<KnownModel>, formatDate: int -> string): Option<string> {
    if model.created.CreatedNumber? && model.created.seconds > 1_630_000_000 then
      Some(formatDate(model.created.seconds))
    else if model.created.CreatedString? then
      var s := model.created.text;
      Some(if IsSecondStamp(s) then SplitOn(s, "T")[0] else s)
    else model.releasedAt.OrElse(if known.Some? then known.value.releasedAt else None)
  }

  /** A second-precision timestamp string is cut to its `YYYY-MM-DD` date. */
  lemma ReleasedAtStampIsDate(model: RawModel, known: Option<KnownModel>, formatDate: int -> string)
    requires model.created.CreatedString? && IsSecondStamp(model.created.text)
    ensures ReleasedAt(model, known, formatDate) == Some(model.created.text[..10])
  {
    var s := model.created.text;
    assert OccursAt(s, "T", 10);
    var k := IndexOf(s, "T").value;
    assert k == 10 by {
      if k < 10 {
        OccursAtHead(s, "T", k);
      }
    }
  }

  /** Any other string is kept as it is, and a recent numeric timestamp is formatted as a date. */
  lemma ReleasedAtOtherCases(model: RawModel, known: Option<KnownModel>, formatDate: int -> string)
    ensures model.created.CreatedString? && !IsSecondStamp(model.created.text) ==>
              ReleasedAt(model, known, formatDate) == Some(model.created.text)
    ensures model.created.CreatedNumber? && model.created.seconds > 1_630_000_000 ==>
              ReleasedAt(model, known, formatDate) == Some(formatDate(model.created.seconds))
    ensures (model.created.NoCreated? || model.created.CreatedOther?
             || (model.created.CreatedNumber? && model.created.seconds <= 1_630_000_000)) ==>
              ReleasedAt(model, known, formatDate)
              == (if model.releasedAt.Some? then model.releasedAt else if known.Some? then known.value.releasedAt else None)
  {
  }

  predicate IsOpenParen(c: char) {
    c == '(' || c == '\U{FF08}'
  }

  predicate IsCloseParen(c: char) {
    c == ')' || c == '\U{FF09}'
  }

  /** The length of the run of whitespace at the start of `s`. */
  function LeadingSpaces(s: string): (n: nat)
    ensures n <= |s|
    ensures forall i :: 0 <= i < n ==> IsSpace(s[i])
    ensures n < |s| ==> !IsSpace(s[n])
  {
    if |s| > 0 && IsSpace(s[0]) then 1 + LeadingSpaces(s[1..]) else 0
  }

  /** The first closing parenthesis at or after `i`. */
  function FirstClose(s: string, i: nat): (r: Option<nat>)
    requires i <= |s|
    ensures r.Some? ==> i <= r.value < |s| && IsCloseParen(s[r.value])
    ensures forall j :: i <= j < |s| && (r.None? || j < r.value) ==> !IsCloseParen(s[j])
    decreases |s| - i
  {
    if i == |s| then None
    else if IsCloseParen(s[i]) then Some(i)
    else FirstClose(s, i + 1)
  }

  /** The length of the match of `\s*[(（][^)）]*[)）]\s*` at the start of `s`, if there is one. */
  function GroupAt(s: string): (r: Option<nat>)
    ensures r.Some? ==> 2 <= r.value <= |s|
  {
    var w := LeadingSpaces(s);
    if w < |s| && IsOpenParen(s[w]) then
      match FirstClose(s, w + 1)
      case None => None
      case Some(k) => Some(k + 1 + LeadingSpaces(s[k + 1..]))
    else None
  }

  /** `s.replaceAll(/\s*[(（][^)）]*[)）]\s*\/g, '')`. */
  function StripGroups(s: string): string
    decreases |s|
  {
    if |s| == 0 then ""
    else
      match GroupAt(s)
      case Some(n) => StripGroups(s[n..])
      case None => [s[0]] + StripGroups(s[1..])
  }

  /** No opening parenthesis is followed, anywhere later, by a closing one. */
  predicate NoGroup(s: string) {
    forall i, j :: 0 <= i < j < |s| && IsOpenParen(s[i]) ==> !IsCloseParen(s[j])
  }

  lemma {:induction false} StripGroupsChars(s: string)
    ensures forall j :: 0 <= j < |StripGroups(s)| ==> StripGroups(s)[j] in s
    decreases |s|
  {
    if |s| > 0 {
      match GroupAt(s)
      case Some(n) =>
        StripGroupsChars(s[n..]);
        forall j | 0 <= j < |StripGroups(s)| ensures StripGroups(s)[j] in s {
          assert StripGroups(s)[j] in s[n..];
        }
      case None =>
        StripGroupsChars(s[1..]);
        var r := StripGroups(s);
        forall j | 0 <= j < |r| ensures r[j] in s {
          if j > 0 {
            assert r[j] == StripGroups(s[1..])[j - 1];
            assert r[j] in s[1..];
          }
        }
    }
  }

  /** No parenthesised group survives the removal. */
  lemma {:induction false} StripGroupsNoGroup(s: string)
    ensures NoGroup(StripGroups(s))
    decreases |s|
  {
    if |s| > 0 {
      match GroupAt(s)
      case Some(n) =>
        StripGroupsNoGroup(s[n..]);
      case None =>
        var tail := StripGroups(s[1..]);
        StripGroupsNoGroup(s[1..]);
        var r := StripGroups(s);
        assert r == [s[0]] + tail;
        if IsOpenParen(s[0]) {
          assert LeadingSpaces(s) == 0;
          assert forall j :: 1 <= j < |s| ==> !IsCloseParen(s[j]);
          StripGroupsChars(s[1..]);
          forall j | 0 <= j < |tail| ensures !IsCloseParen(tail[j]) {
            var c := tail[j];
            assert c in s[1..];
            var m :| 0 <= m < |s[1..]| && s[1..][m] == c;
            assert s[m + 1] == c;
          }
        }
        forall i, j | 0 <= i < j < |r| && IsOpenParen(r[i]) ensures !IsCloseParen(r[j]) {
          assert r[j] == tail[j - 1];
          if i > 0 {
            assert r[i] == tail[i - 1];
          }
        }
    }
  }

  /** A name without opening parentheses is kept as it is. */
  lemma {:induction false} StripGroupsPlain(s: string)
    requires forall i :: 0 <= i < |s| ==> !IsOpenParen(s[i])
    ensures StripGroups(s) == s
    decreases |s|
  {
    if |s| > 0 {
      StripGroupsPlain(s[1..]);
      assert s == [s[0]] + s[1..];
    }
  }

  lemma NoGroupSlice(s: string, a: nat, b: nat)
    requires NoGroup(s) && a <= b <= |s|
    ensures NoGroup(s[a..b])
  {
    var t := s[a..b];
    forall i, j | 0 <= i < j < |t| && IsOpenParen(t[i]) ensures !IsCloseParen(t[j]) {
      assert t[i] == s[a + i] && t[j] == s[a + j];
    }
  }

  /** `displayName`: the model's, else the known model's, else the id; groups removed, then trimmed. */
  function DisplayName(model: RawModel, known: Option<KnownModel>): (r: string)
    ensures NoGroup(r)
    ensures |r| > 0 ==> !IsSpace(r[0]) && !IsSpace(r[|r| - 1])
  {
    var name := if model.displayName.Some? then model.displayName.value
                else if known.Some? && known.value.displayName.Some? then known.value.displayName.value
                else model.id;
    var stripped := StripGroups(name);
    StripGroupsNoGroup(name);
    var front := TrimStart(stripped);
    NoGroupSlice(stripped, |stripped| - |front|, |stripped|);
    var r := TrimEnd(front);
    NoGroupSlice(front, 0, |r|);
    assert |r| > 0 ==> r[0] == front[0];
    r
  }

  /** A model named `GPT (Beta)` is shown as `GPT`, whatever the known model says. */
  lemma DisplayNameExample(model: RawModel, known: Option<KnownModel>)
    requires model.displayName == Some("GPT (Beta)")
    ensures DisplayName(model, known) == "GPT"
  {
    StripBetaGroup();
    TrimPlain("GPT");
  }

  /** A string with no space at either end is its own trim. */
  lemma TrimPlain(s: string)
    requires |s| > 0 && !IsSpace(s[0]) && !IsSpace(s[|s| - 1])
    ensures TrimEnd(TrimStart(s)) == s
  {
  }

  lemma StripBetaGroup()
    ensures StripGroups("GPT (Beta)") == "GPT"
  {
    var s := "GPT (Beta)";
    var t := " (Beta)";
    assert s[3..] == t;
    assert LeadingSpaces(t[1..]) == 0;
    assert LeadingSpaces(t) == 1;
    assert FirstClose(t, 6) == Some(6);
    assert FirstClose(t, 5) == Some(6);
    assert FirstClose(t, 4) == Some(6);
    assert FirstClose(t, 3) == Some(6);
    assert FirstClose(t, 2) == Some(6);
    assert t[7..] == "";
    assert LeadingSpaces(t[7..]) == 0;
    assert GroupAt(t) == Some(7);
    assert StripGroups(t) == "";
    assert GroupAt(s[2..]) == None;
    assert StripGroups(s[2..]) == "T";
    assert GroupAt(s[1..]) == None;
    assert GroupAt(s) == None;
  }

  function KnownType(known: Option<KnownModel>): Option<string> {
    if known.Some? then known.value.modelType else None
  }

  function KnownParameters(known: Option<KnownModel>): Option<Parameters> {
    if known.Some? then known.value.parameters else None
  }

  function KnownAbility(known: Option<KnownModel>, pick: Abilities -> Option<bool>): Option<bool> {
    if known.Some? && known.value.abilities.Some? then pick(known.value.abilities.value) else None
  }

  /** The image keywords, lower-cased as the source does before matching. */
  function LowerImageKeywords(): (r: seq<string>)
    ensures |r| == |ImageModelKeywords|
  {
    seq(|ImageModelKeywords|, i requires 0 <= i < |ImageModelKeywords| => ToLower(ImageModelKeywords[i]))
  }

  /** The model's type, else the known type, else `image` on an image keyword, else `chat`. */
  function ModelType(model: RawModel, known: Option<KnownModel>): string {
    if Truthy(model.modelType) then model.modelType.value
    else if Truthy(KnownType(known)) then KnownType(known).value
    else if KeywordListMatch(ToLower(model.id), LowerImageKeywords()) then "image"
    else "chat"
  }

  /** An explicit field first, then the known ability, then the keyword rule. */
  function Ability(explicit: Option<bool>, known: Option<bool>, byKeyword: bool): bool {
    explicit.GetOr(known.GetOr(byKeyword))
  }

  /** `processModelCard`; `None` for an image model for which no parameters are known. */
  function ProcessModelCard(model: RawModel, config: ProcessorConfig, known: Option<KnownModel>,
                            formatDate: int -> string): (r: Option<ChatModelCard>)
    ensures r.None? <==> ModelType(model, known) == "image" && model.parameters.None? && KnownParameters(known).None?
    ensures r.Some? ==> r.value.id == model.id && r.value.modelType == ModelType(model, known)
    ensures r.Some? && r.value.modelType == "image" ==> r.value.parameters.Some?
    ensures r.Some? && r.value.modelType != "image" ==> r.value.parameters.None?
  {
    var lowerId := ToLower(model.id);
    var isExcluded := KeywordListMatch(lowerId, config.excludeKeywords);
    var modelType := ModelType(model, known);
    if modelType == "image" && model.parameters.None? && KnownParameters(known).None? then None
    else
      Some(ChatModelCard(
        model.contextWindowTokens.OrElse(if known.Some? then known.value.contextWindowTokens else None),
        model.description.GetOr(if known.Some? && known.value.description.Some? then known.value.description.value else ""),
        DisplayName(model, known),
        model.enabled == Some(true),
        Ability(model.functionCall, KnownAbility(known, (a: Abilities) => a.functionCall),
                KeywordListMatch(lowerId, config.functionCallKeywords) && !isExcluded),
        model.id,
        model.maxOutput.OrElse(if known.Some? then known.value.maxOutput else None),
        Ability(model.reasoning, KnownAbility(known, (a: Abilities) => a.reasoning),
                KeywordListMatch(lowerId, config.reasoningKeywords)),
        ReleasedAt(model, known, formatDate),
        modelType,
        if modelType == "image" then model.parameters.OrElse(KnownParameters(known)) else None,
        Ability(model.vision, KnownAbility(known, (a: Abilities) => a.vision),
                KeywordListMatch(lowerId, config.visionKeywords) && !isExcluded)))
  }

  /** The explicit ability fields win over the known model and the keywords. */
  lemma ExplicitAbilitiesWin(model: RawModel, config: ProcessorConfig, known: Option<KnownModel>,
                             formatDate: int -> string)
    requires ProcessModelCard(model, config, known, formatDate).Some?
    ensures var c := ProcessModelCard(model, config, known, formatDate).value;
      (model.functionCall.Some? ==> c.functionCall == model.functionCall.value)
      && (model.reasoning.Some? ==> c.reasoning == model.reasoning.value)
      && (model.vision.Some? ==> c.vision == model.vision.value)
      && c.enabled == (model.enabled == Some(true))
  {
  }

  /**
   * Without explicit or known abilities, an excluded id gets neither function calling nor
   * vision, while reasoning still follows its keywords.
   */
  lemma ExclusionSuppressesAbilities(model: RawModel, config: ProcessorConfig, known: Option<KnownModel>,
                                     formatDate: int -> string)
    requires ProcessModelCard(model, config, known, formatDate).Some?
    requires model.functionCall.None? && model.reasoning.None? && model.vision.None?
    requires known.None? || known.value.abilities.None?
    requires KeywordListMatch(ToLower(model.id), config.excludeKeywords)
    ensures var c := ProcessModelCard(model, config, known, formatDate).value;
      !c.functionCall && !c.vision && c.reasoning == KeywordListMatch(ToLower(model.id), config.reasoningKeywords)
  {
  }

  /** Without explicit or known abilities and without exclusion, the keywords decide. */
  lemma KeywordAbilities(model: RawModel, config: ProcessorConfig, formatDate: int -> string)
    requires ProcessModelCard(model, config, None, formatDate).Some?
    requires model.functionCall.None? && model.reasoning.None? && model.vision.None?
    requires !KeywordListMatch(ToLower(model.id), config.excludeKeywords)
    ensures var c := ProcessModelCard(model, config, None, formatDate).value;
      var l := ToLower(model.id);
      (c.functionCall <==> KeywordListMatch(l, config.functionCallKeywords))
      && (c.vision <==> KeywordListMatch(l, config.visionKeywords))
      && (c.reasoning <==> KeywordListMatch(l, config.reasoningKeywords))
  {
  }

  /** Explicit type, then known type; the keyword rule only decides between image and chat. */
  lemma TypeChoice(model: RawModel, known: Option<KnownModel>)
    ensures Truthy(model.modelType) ==> ModelType(model, known) == model.modelType.value
    ensures !Truthy(model.modelType) && known.Some? && Truthy(known.value.modelType) ==>
              ModelType(model, known) == known.value.modelType.value
    ensures !Truthy(model.modelType) && !Truthy(KnownType(known)) ==>
              (ModelType(model, known) == "image" <==> KeywordListMatch(ToLower(model.id), LowerImageKeywords()))
              && (ModelType(model, known) == "image" || ModelType(model, known) == "chat")
  {
  }

  // ---------------------------------------------------------------------------
  // Model lists

  /** `list.find(m => m.id.toLowerCase() === lowerId)`. */
  function FindKnown(models: seq<KnownModel>, lowerId: string): (r: Option<KnownModel>)
    ensures r.Some? ==> r.value in models && ToLower(r.value.id) == lowerId
    ensures r.None? ==> forall m :: m in models ==> ToLower(m.id) != lowerId
  {
    if |models| == 0 then None
    else if ToLower(models[0].id) == lowerId then Some(models[0])
    else FindKnown(models[1..], lowerId)
  }

  /** The provider catalogue's entry for the id, else the default list's. */
  function KnownModelFor(id: string, providerModels: Option<seq<KnownModel>>, defaults: seq<KnownModel>): Option<KnownModel> {
    var fromProvider := if providerModels.Some? then FindKnown(providerModels.value, ToLower(id)) else None;
    fromProvider.OrElse(FindKnown(defaults, ToLower(id)))
  }

  /** The present values of a list of options, in order (`filter(r => !!r)`). */
  function Present<T(!new)>(xs: seq<Option<T>>): (r: seq<T>)
    ensures |r| <= |xs|
    ensures forall x :: x in r <==> exists i :: 0 <= i < |xs| && xs[i] == Some(x)
  {
    if |xs| == 0 then []
    else
      var rest := Present(xs[1..]);
      assert forall x :: (exists i :: 0 <= i < |xs| && xs[i] == Some(x))
                         <==> xs[0] == Some(x) || exists i :: 0 <= i < |xs[1..]| && xs[1..][i] == Some(x) by {
        forall x ensures (exists i :: 0 <= i < |xs| && xs[i] == Some(x))
                         ==> xs[0] == Some(x) || exists i :: 0 <= i < |xs[1..]| && xs[1..][i] == Some(x) {
          if i :| 0 <= i < |xs| && xs[i] == Some(x) {
            if i > 0 {
              assert xs[1..][i - 1] == Some(x);
            }
          }
        }
      }
      if xs[0].Some? then [xs[0].value] + rest else rest
  }

  /** The card of one model of a single-provider list. */
  function ListCard(model: RawModel, config: ProcessorConfig, providerModels: Option<seq<KnownModel>>,
                    defaults: seq<KnownModel>, formatDate: int -> string): Option<ChatModelCard> {
    ProcessModelCard(model, config, KnownModelFor(model.id, providerModels, defaults), formatDate)
  }

  function ListCards(modelList: seq<RawModel>, config: ProcessorConfig, providerModels: Option<seq<KnownModel>>,
                     defaults: seq<KnownModel>, formatDate: int -> string): (r: seq<Option<ChatModelCard>>)
    ensures |r| == |modelList|
    ensures forall i :: 0 <= i < |modelList| ==> r[i] == ListCard(modelList[i], config, providerModels, defaults, formatDate)
  {
    seq(|modelList|, i requires 0 <= i < |modelList| => ListCard(modelList[i], config, providerModels, defaults, formatDate))
  }

  /**
   * `processModelList`: every model becomes a card with the provider's catalogue entry
   * (`None` when no provider is given or its catalogue cannot be loaded) or the default
   * list's entry as known model; dropped cards are filtered out.
   */
  function ProcessModelList(modelList: seq<RawModel>, config: ProcessorConfig,
                            providerModels: Option<seq<KnownModel>>, defaults: seq<KnownModel>,
                            formatDate: int -> string): (r: seq<ChatModelCard>)
    ensures |r| <= |modelList|
    ensures forall c :: c in r <==>
              (exists i :: 0 <= i < |modelList| && ListCard(modelList[i], config, providerModels, defaults, formatDate) == Some(c))
  {
    Present(ListCards(modelList, config, providerModels, defaults, formatDate))
  }

  /** No image card without parameters reaches the list. */
  lemma ListedImagesHaveParameters(modelList: seq<RawModel>, config: ProcessorConfig,
                                   providerModels: Option<seq<KnownModel>>, defaults: seq<KnownModel>,
                                   formatDate: int -> string)
    ensures forall c :: c in ProcessModelList(modelList, config, providerModels, defaults, formatDate) ==>
              c.modelType == "image" ==> c.parameters.Some?
  {
  }

  /** The known model comes from the provider catalogue first, then from the default list, by lower-cased id. */
  lemma KnownModelChoice(id: string, providerModels: Option<seq<KnownModel>>, defaults: seq<KnownModel>)
    ensures var k := KnownModelFor(id, providerModels, defaults);
      (k.Some? ==> ToLower(k.value.id) == ToLower(id))
      && (providerModels.Some? && FindKnown(providerModels.value, ToLower(id)).Some? ==> k.value in providerModels.value)
      && (k.None? ==> forall m :: m in defaults ==> ToLower(m.id) != ToLower(id))
  {
  }

  /** A provider-local catalogue entry: only its id and `enabled` flag are read. */
  datatype LocalModel = LocalModel(id: string, enabled: Option<bool>)

  /** `providerLocalConfig.find(m => m.id === id)`, matching the id exactly. */
  function FindLocal(local: seq<LocalModel>, id: string): (r: Option<LocalModel>)
    ensures r.Some? ==> r.value in local && r.value.id == id
    ensures r.None? ==> forall m :: m in local ==> m.id != id
  {
    if |local| == 0 then None
    else if local[0].id == id then Some(local[0])
    else FindLocal(local[1..], id)
  }

  /** One model of a multi-provider list: its detected family's keywords, catalogue and local `enabled`. */
  function ProcessMultiProviderModel(model: RawModel, localConfig: Option<seq<LocalModel>>,
                                     catalogue: string -> Option<seq<KnownModel>>, defaults: seq<KnownModel>,
                                     formatDate: int -> string): Option<ChatModelCard>
  {
    var detected := DetectedProvider(model.id);
    var known := KnownModelFor(model.id, catalogue(detected), defaults);
    var card := ProcessModelCard(model, ModelListConfigs[detected], known, formatDate);
    var local := if localConfig.Some? then FindLocal(localConfig.value, model.id) else None;
    if card.Some? && local.Some? && local.value.enabled.Some? then Some(card.value.(enabled := local.value.enabled.value))
    else card
  }

  /** `processMultiProviderModelList`. */
  function ProcessMultiProviderModelList(modelList: seq<RawModel>, localConfig: Option<seq<LocalModel>>,
                                         catalogue: string -> Option<seq<KnownModel>>, defaults: seq<KnownModel>,
                                         formatDate: int -> string): (r: seq<ChatModelCard>)
    ensures |r| <= |modelList|
    ensures forall c :: c in r <==>
              (exists i :: 0 <= i < |modelList|
                 && ProcessMultiProviderModel(modelList[i], localConfig, catalogue, defaults, formatDate) == Some(c))
  {
    Present(MultiProviderCards(modelList, localConfig, catalogue, defaults, formatDate))
  }

  function MultiProviderCards(modelList: seq<RawModel>, localConfig: Option<seq<LocalModel>>,
                              catalogue: string -> Option<seq<KnownModel>>, defaults: seq<KnownModel>,
                              formatDate: int -> string): (r: seq<Option<ChatModelCard>>)
    ensures |r| == |modelList|
    ensures forall i :: 0 <= i < |modelList| ==>
              r[i] == ProcessMultiProviderModel(modelList[i], localConfig, catalogue, defaults, formatDate)
  {
    seq(|modelList|, i requires 0 <= i < |modelList| =>
      ProcessMultiProviderModel(modelList[i], localConfig, catalogue, defaults, formatDate))
  }

  /**
   * In a multi-provider list a boolean `enabled` in the provider-local entry decides
   * `enabled`; otherwise it is the model's own flag, false by default. Nothing else of the
   * single-model card changes.
   */
  lemma LocalEnabledOverrides(model: RawModel, localConfig: Option<seq<LocalModel>>,
                              catalogue: string -> Option<seq<KnownModel>>, defaults: seq<KnownModel>,
                              formatDate: int -> string)
    requires ProcessMultiProviderModel(model, localConfig, catalogue, defaults, formatDate).Some?
    ensures var c := ProcessMultiProviderModel(model, localConfig, catalogue, defaults, formatDate).value;
      var detected := DetectedProvider(model.id);
      var base := ProcessModelCard(model, ModelListConfigs[detected],
                                   KnownModelFor(model.id, catalogue(detected), defaults), formatDate).value;
      var local := if localConfig.Some? then FindLocal(localConfig.value, model.id) else None;
      c == base.(enabled := c.enabled)
      && (local.Some? && local.value.enabled.Some? ==> c.enabled == local.value.enabled.value)
      && (!(local.Some? && local.value.enabled.Some?) ==> c.enabled == (model.enabled == Some(true)))
  {
    var detected := DetectedProvider(model.id);
    var known := KnownModelFor(model.id, catalogue(detected), defaults);
    assert ProcessModelCard(model, ModelListConfigs[detected], known, formatDate).Some?;
    ExplicitAbilitiesWin(model, ModelListConfigs[detected], known, formatDate);
  }
}
