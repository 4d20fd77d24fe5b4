/**
 * The Gemini stream chunk normaliser: one chunk of a Google Generative AI response
 * becomes the list of protocol events the chat client consumes (`text`, `reasoning`,
 * `tool_calls`, `grounding`, `base64_image`, `stop`, `usage`, `error`). A chunk that the
 * source turns into a single event gives a one-element list here.
 *
 * The locale table of block-reason messages, the tool-call id generator and the JSON
 * serialiser are passed in through `Env`.
 */
module GoogleStream {
  import opened Wrappers
  import opened Strings
  import opened DataUrls

  /** The key of the internal error marker injected into a chunk. */
  const LobeErrorKey := "__lobe_error"

  /** The placeholder of the default block-reason message. */
  const BlockReasonPlaceholder := "{{blockReason}}"

  datatype ModalityTokenCount = ModalityTokenCount(modality: Option<string>, tokenCount: Option<nat>)

  datatype UsageMetadata = UsageMetadata(
    promptTokenCount: Option<nat>,
    candidatesTokenCount: Option<nat>,
    thoughtsTokenCount: Option<nat>,
    cachedContentTokenCount: Option<nat>,
    totalTokenCount: Option<nat>,
    promptTokensDetails: Option<seq<ModalityTokenCount>>,
    candidatesTokensDetails: Option<seq<ModalityTokenCount>>)

  datatype InlineData = InlineData(data: Option<string>, mimeType: Option<string>)

  datatype Part = Part(text: Option<string>, thought: Option<bool>, inlineData: Option<InlineData>)

  datatype Web = Web(title: Option<string>, uri: Option<string>)

  datatype GroundingChunk = GroundingChunk(web: Option<Web>)

  datatype GroundingMetadata = GroundingMetadata(
    groundingChunks: Option<seq<GroundingChunk>>,
    webSearchQueries: Option<seq<string>>)

  datatype Candidate = Candidate(
    parts: Option<seq<Part>>,
    finishReason: Option<string>,
    groundingMetadata: Option<GroundingMetadata>)

  datatype FunctionCall = FunctionCall(name: string, args: map<string, string>)

  datatype PromptFeedback = PromptFeedback(blockReason: Option<string>, blockReasonMessage: Option<string>)

  /**
   * One response chunk. `text` and `functionCalls` are the SDK's derived views of the
   * chunk; `lobeError` is the value under the internal error key, present when truthy.
   */
  datatype Chunk = Chunk(
    lobeError: Option<string>,
    promptFeedback: Option<PromptFeedback>,
    candidates: Option<seq<Candidate>>,
    usageMetadata: Option<UsageMetadata>,
    functionCalls: Option<seq<FunctionCall>>,
    text: Option<string>)

  datatype ToolCallData = ToolCallData(arguments: string, name: string, id: string, index: nat, callType: string)

  datatype Citation = Citation(favicon: Option<string>, title: Option<string>, url: Option<string>)

  datatype Usage = Usage(
    inputCachedTokens: Option<nat>,
    inputImageTokens: Option<nat>,
    inputTextTokens: Option<nat>,
    outputImageTokens: nat,
    outputReasoningTokens: Option<nat>,
    outputTextTokens: nat,
    totalInputTokens: Option<nat>,
    totalOutputTokens: nat,
    totalTokens: Option<nat>)

  datatype EventData =
    | LobeError(payload: string)
      /** `{ type: 'ProviderBizError', body: { context: { promptFeedback }, message, provider: 'google' } }` */
    | ProviderBizError(message: string, promptFeedback: PromptFeedback, provider: string)
    | ToolCalls(calls: seq<ToolCallData>)
    | Reasoning(thinking: string)
    | TextData(content: Option<string>)
    | Grounding(citations: seq<Citation>, searchQueries: Option<seq<string>>)
    | Base64Image(url: string)
    | Stop(reason: string)
    | UsageData(usage: Usage)

  datatype Event = Event(id: string, data: EventData)

  /** The foreign pieces the normaliser calls. */
  datatype Env = Env(
    /** The `GoogleAIBlockReason` locale table, including its `default` template. */
    blockReasonMessages: map<string, string>,
    generateToolCallId: (nat, string) -> string,
    stringify: map<string, string> -> string)

  /** JavaScript truthiness of an optional string. */
  predicate Truthy(s: Option<string>) {
    s.Some? && s.value != ""
  }

  /** `getBlockReasonMessage`: the table's own message, else the default one with the reason filled in. */
  function BlockReasonMessage(table: map<string, string>, blockReason: string): string
    requires "default" in table
  {
    if blockReason in table && table[blockReason] != "" then table[blockReason]
    else ReplaceFirst(table["default"], BlockReasonPlaceholder, blockReason)
  }

  /** A reason without its own message is spelled out inside the default template. */
  lemma BlockReasonFallback(table: map<string, string>, before: string, after: string, blockReason: string)
    requires "default" in table && table["default"] == before + BlockReasonPlaceholder + after
    requires !Contains(before, "{")
    requires blockReason !in table || table[blockReason] == ""
    requires forall i :: 0 <= i < |blockReason| ==> blockReason[i] != '$'
    ensures BlockReasonMessage(table, blockReason) == before + blockReason + after
  {
    var t := table["default"];
    ContainsInfix(before, BlockReasonPlaceholder, after);
    var k := IndexOf(t, BlockReasonPlaceholder).value;
    assert t[|before|..|before| + |BlockReasonPlaceholder|] == BlockReasonPlaceholder;
    assert OccursAt(t, BlockReasonPlaceholder, |before|);
    assert k == |before| by {
      if k < |before| {
        OccursAtHead(t, BlockReasonPlaceholder, k);
        assert before[k] == t[k];
        ContainsAt(before, "{", k) by {
          assert before[k..k + 1] == "{";
        }
      }
    }
    ReplaceFirstLiteral(t, BlockReasonPlaceholder, blockReason);
    assert t[..k] == before;
    assert t[k + |BlockReasonPlaceholder|..] == after;
  }

  /** A reason with a non-empty message of its own gets that message. */
  lemma BlockReasonOwnMessage(table: map<string, string>, blockReason: string)
    requires "default" in table && blockReason in table && table[blockReason] != ""
    ensures BlockReasonMessage(table, blockReason) == table[blockReason]
  {
  }

  /** The sum of the token counts of a details list, an absent count adding 0. */
  function SumTokens(ds: seq<ModalityTokenCount>): nat {
    if |ds| == 0 then 0 else SumTokens(ds[..|ds| - 1]) + ds[|ds| - 1].tokenCount.GetOr(0)
  }

  /** `details.find(i => i.modality === m)`. */
  function FindModality(ds: seq<ModalityTokenCount>, m: string): (r: Option<ModalityTokenCount>)
    ensures r.Some? ==> r.value in ds && r.value.modality == Some(m)
    ensures r.None? ==> forall i :: 0 <= i < |ds| ==> ds[i].modality != Some(m)
  {
    if |ds| == 0 then None
    else if ds[0].modality == Some(m) then Some(ds[0])
    else FindModality(ds[1..], m)
  }

  /** `details?.find(i => i.modality === m)?.tokenCount`. */
  function ModalityCount(ds: Option<seq<ModalityTokenCount>>, m: string): Option<nat> {
    match ds
    case None => None
    case Some(list) =>
      match FindModality(list, m)
      case None => None
      case Some(entry) => entry.tokenCount
  }

  /** The reported candidates total, else the sum of the details, else 0. */
  function CandidatesTotal(u: UsageMetadata): nat {
    match u.candidatesTokenCount
    case Some(n) => n
    case None =>
      match u.candidatesTokensDetails
      case Some(ds) => SumTokens(ds)
      case None => 0
  }

  function ComputeUsage(u: UsageMetadata): Usage {
    var total := CandidatesTotal(u);
    var image := ModalityCount(u.candidatesTokensDetails, "IMAGE").GetOr(0);
    var text := match ModalityCount(u.candidatesTokensDetails, "TEXT")
      case Some(n) => n
      case None => if total >= image then total - image else 0;
    Usage(
      u.cachedContentTokenCount,
      ModalityCount(u.promptTokensDetails, "IMAGE"),
      ModalityCount(u.promptTokensDetails, "TEXT"),
      image,
      u.thoughtsTokenCount,
      text,
      u.promptTokenCount,
      total + u.thoughtsTokenCount.GetOr(0),
      u.totalTokenCount)
  }

  /** The output total is the candidates total plus the reasoning tokens. */
  lemma UsageTotals(u: UsageMetadata)
    ensures ComputeUsage(u).totalOutputTokens == CandidatesTotal(u) + u.thoughtsTokenCount.GetOr(0)
    ensures ComputeUsage(u).totalOutputTokens >= ComputeUsage(u).outputTextTokens
      || ModalityCount(u.candidatesTokensDetails, "TEXT").Some?
  {
  }

  lemma {:induction false} EntryBelowSum(ds: seq<ModalityTokenCount>, e: ModalityTokenCount)
    requires e in ds
    ensures e.tokenCount.GetOr(0) <= SumTokens(ds)
  {
    if ds[|ds| - 1] != e {
      assert e in ds[..|ds| - 1] by {
        var i :| 0 <= i < |ds| && ds[i] == e;
        assert i < |ds| - 1;
        assert ds[..|ds| - 1][i] == e;
      }
      EntryBelowSum(ds[..|ds| - 1], e);
    }
  }

  /**
   * When the total comes from the details and no TEXT entry is reported, the text tokens
   * are the rest of the total after the image tokens, so the two add up to the total.
   */
  lemma TextAndImageMakeTotal(u: UsageMetadata)
    requires u.candidatesTokenCount.None? && u.candidatesTokensDetails.Some?
    requires ModalityCount(u.candidatesTokensDetails, "TEXT").None?
    ensures ComputeUsage(u).outputTextTokens + ComputeUsage(u).outputImageTokens == CandidatesTotal(u)
  {
    var ds := u.candidatesTokensDetails.value;
    match FindModality(ds, "IMAGE")
    case None =>
    case Some(e) => EntryBelowSum(ds, e);
  }

  /** A reported TEXT count is used as it is, even when it disagrees with the total. */
  lemma ReportedTextCountWins(u: UsageMetadata, n: nat)
    requires ModalityCount(u.candidatesTokensDetails, "TEXT") == Some(n)
    ensures ComputeUsage(u).outputTextTokens == n
  {
  }

  /** `chunk.candidates?.[0]`. */
  function FirstCandidate(chunk: Chunk): Option<Candidate> {
    if chunk.candidates.Some? && |chunk.candidates.value| > 0 then Some(chunk.candidates.value[0]) else None
  }

  function PartsOf(c: Candidate): seq<Part> {
    c.parts.GetOr([])
  }

  predicate IsThought(p: Part) {
    Truthy(p.text) && p.thought == Some(true)
  }

  /** The text of the first part marked as a thought. */
  function FirstThought(parts: seq<Part>): (r: Option<string>)
    ensures r.Some? ==> exists i :: 0 <= i < |parts| && IsThought(parts[i]) && parts[i].text == Some(r.value)
    ensures r.None? ==> forall i :: 0 <= i < |parts| ==> !IsThought(parts[i])
  {
    if |parts| == 0 then None
    else if IsThought(parts[0]) then Some(parts[0].text.value)
    else
      var r := FirstThought(parts[1..]);
      assert r.Some? ==> exists i :: 0 <= i < |parts| && IsThought(parts[i]) && parts[i].text == Some(r.value) by {
        if r.Some? {
          var j :| 0 <= j < |parts[1..]| && IsThought(parts[1..][j]) && parts[1..][j].text == Some(r.value);
          assert parts[j + 1] == parts[1..][j];
        }
      }
      assert r.None? ==> forall i :: 0 <= i < |parts| ==> !IsThought(parts[i]) by {
        if r.None? {
          forall i | 0 < i < |parts| ensures !IsThought(parts[i]) {
            assert parts[i] == parts[1..][i - 1];
          }
        }
      }
      r
  }

  predicate HasImage(p: Part) {
    p.inlineData.Some? && Truthy(p.inlineData.value.data) && Truthy(p.inlineData.value.mimeType)
  }

  function ErrorId(ctxId: string): string {
    if ctxId == "" then "error" else ctxId
  }

  function ToolCallsOf(calls: seq<FunctionCall>, env: Env): (r: seq<ToolCallData>)
    ensures |r| == |calls|
    ensures forall i :: 0 <= i < |calls| ==>
      r[i] == ToolCallData(env.stringify(calls[i].args), calls[i].name, env.generateToolCallId(i, calls[i].name), i, "function")
  {
    seq(|calls|, i requires 0 <= i < |calls| =>
      ToolCallData(env.stringify(calls[i].args), calls[i].name, env.generateToolCallId(i, calls[i].name), i, "function"))
  }

  function CitationOf(g: GroundingChunk): Citation {
    match g.web
    case None => Citation(None, None, None)
    case Some(w) => Citation(w.title, w.title, w.uri)
  }

  function Citations(gs: seq<GroundingChunk>): (r: seq<Citation>)
    ensures |r| == |gs| && forall i :: 0 <= i < |gs| ==> r[i] == CitationOf(gs[i])
  {
    seq(|gs|, i requires 0 <= i < |gs| => CitationOf(gs[i]))
  }

  predicate HasGrounding(c: Candidate) {
    c.groundingMetadata.Some? && c.groundingMetadata.value.groundingChunks.Some?
  }

  /** The `stop` and `usage` pair, emitted when the candidate finished and usage is reported. */
  function UsageEvents(chunk: Chunk, ctxId: string): seq<Event> {
    var c := FirstCandidate(chunk);
    if c.Some? && Truthy(c.value.finishReason) && chunk.usageMetadata.Some? then
      [Event(ctxId, Stop(c.value.finishReason.value)), Event(ctxId, UsageData(ComputeUsage(chunk.usageMetadata.value)))]
    else []
  }

  /** The events of a chunk that has a first candidate and no function calls. */
  function CandidateEvents(chunk: Chunk, c: Candidate, ctxId: string): seq<Event> {
    var parts := PartsOf(c);
    var usage := UsageEvents(chunk, ctxId);
    match FirstThought(parts)
    case Some(t) => [Event(ctxId, Reasoning(t))]
    case None =>
      if HasGrounding(c) then
        var g := c.groundingMetadata.value;
        [Event(ctxId, TextData(chunk.text)), Event(ctxId, Grounding(Citations(g.groundingChunks.value), g.webSearchQueries))]
          + usage
      else if |parts| > 0 && HasImage(parts[0]) then
        var d := parts[0].inlineData.value;
        var image := Event(ctxId, Base64Image(Base64DataUrl(d.mimeType.value, d.data.value)));
        if !Truthy(c.finishReason) then [image]
        else if chunk.usageMetadata.Some? then [image] + usage
        else [image, Event(ctxId, Stop(c.finishReason.value))]
      else if Truthy(c.finishReason) then
        if chunk.usageMetadata.Some? then
          (if Truthy(chunk.text) then [Event(ctxId, TextData(chunk.text))] else []) + usage
        else [Event(ctxId, Stop(c.finishReason.value))]
      else if chunk.text.Some? && Trim(chunk.text.value) != "" then [Event(ctxId, TextData(chunk.text))]
      else [Event(ctxId, TextData(Some(chunk.text.GetOr(""))))]
  }

  /** `transformGoogleGenerativeAIStream(chunk, context)`. */
  function TransformSpec(chunk: Chunk, ctxId: string, env: Env): seq<Event>
    requires "default" in env.blockReasonMessages
  {
    if chunk.lobeError.Some? then [Event(ErrorId(ctxId), LobeError(chunk.lobeError.value))]
    else if chunk.promptFeedback.Some? && Truthy(chunk.promptFeedback.value.blockReason) then
      var feedback := chunk.promptFeedback.value;
      [Event(ErrorId(ctxId), ProviderBizError(BlockReasonMessage(env.blockReasonMessages, feedback.blockReason.value),
                                               feedback, "google"))]
    else if chunk.functionCalls.Some? then
      [Event(ctxId, ToolCalls(ToolCallsOf(chunk.functionCalls.value, env)))] + UsageEvents(chunk, ctxId)
    else
      match FirstCandidate(chunk)
      case Some(c) => CandidateEvents(chunk, c, ctxId)
      case None => [Event(ctxId, TextData(Some(chunk.text.GetOr(""))))]
  }

  /** The normaliser as the source writes it: a pushed `usageChunks` list and a scan for the first thought. */
  method Transform(chunk: Chunk, ctxId: string, env: Env) returns (events: seq<Event>)
    requires "default" in env.blockReasonMessages
    ensures events == TransformSpec(chunk, ctxId, env)
  {
    if chunk.lobeError.Some? {
      return [Event(ErrorId(ctxId), LobeError(chunk.lobeError.value))];
    }
    if chunk.promptFeedback.Some? && Truthy(chunk.promptFeedback.value.blockReason) {
      var feedback := chunk.promptFeedback.value;
      var message := BlockReasonMessage(env.blockReasonMessages, feedback.blockReason.value);
      return [Event(ErrorId(ctxId), ProviderBizError(message, feedback, "google"))];
    }
    var candidate := FirstCandidate(chunk);
    var usageChunks: seq<Event> := [];
    if candidate.Some? && Truthy(candidate.value.finishReason) && chunk.usageMetadata.Some? {
      usageChunks := usageChunks + [Event(ctxId, Stop(candidate.value.finishReason.value)),
                                    Event(ctxId, UsageData(ComputeUsage(chunk.usageMetadata.value)))];
    }
    assert usageChunks == UsageEvents(chunk, ctxId);
    if chunk.functionCalls.Some? {
      return [Event(ctxId, ToolCalls(ToolCallsOf(chunk.functionCalls.value, env)))] + usageChunks;
    }
    if candidate.Some? {
      var c := candidate.value;
      var parts := PartsOf(c);
      var i := 0;
      while i < |parts|
        invariant 0 <= i <= |parts|
        invariant FirstThought(parts) == FirstThought(parts[i..])
      {
        if IsThought(parts[i]) {
          return [Event(ctxId, Reasoning(parts[i].text.value))];
        }
        assert parts[i..][1..] == parts[i + 1..];
        i := i + 1;
      }
      assert FirstThought(parts) == None;
      events := CandidateEvents(chunk, c, ctxId);
      return;
    }
    events := [Event(ctxId, TextData(Some(chunk.text.GetOr(""))))];
  }

  predicate IsStop(e: Event) {
    e.data.Stop?
  }

  predicate IsError(e: Event) {
    e.data.LobeError? || e.data.ProviderBizError?
  }

  function CountStops(es: seq<Event>): nat {
    if |es| == 0 then 0 else (if IsStop(es[0]) then 1 else 0) + CountStops(es[1..])
  }

  lemma {:induction false} CountStopsAppend(a: seq<Event>, b: seq<Event>)
    ensures CountStops(a + b) == CountStops(a) + CountStops(b)
  {
    if |a| > 0 {
      assert (a + b)[1..] == a[1..] + b;
      CountStopsAppend(a[1..], b);
    } else {
      assert a + b == b;
    }
  }

  lemma UsageEventsShape(chunk: Chunk, ctxId: string)
    ensures var u := UsageEvents(chunk, ctxId);
      (u == [] || (|u| == 2 && IsStop(u[0]) && u[1].data.UsageData?)) && CountStops(u) <= 1
  {
    var u := UsageEvents(chunk, ctxId);
    if u != [] {
      CountStopsPair(u[0], u[1]);
      assert u == [u[0], u[1]];
    }
  }

  lemma CountStopsPair(a: Event, b: Event)
    ensures CountStops([a, b]) == (if IsStop(a) then 1 else 0) + (if IsStop(b) then 1 else 0)
  {
    assert [a, b][1..] == [b];
    assert [b][1..] == [];
    assert CountStops([b]) == (if IsStop(b) then 1 else 0) + CountStops([]);
  }

  /** A stop is the last event, or is followed by the usage event and nothing else. */
  predicate StopIsTerminal(es: seq<Event>) {
    forall i :: 0 <= i < |es| && IsStop(es[i]) ==>
      i == |es| - 1 || (i == |es| - 2 && es[|es| - 1].data.UsageData?)
  }

  lemma AppendUsageKeepsTerminal(prefix: seq<Event>, chunk: Chunk, ctxId: string)
    requires forall i :: 0 <= i < |prefix| ==> !IsStop(prefix[i])
    ensures StopIsTerminal(prefix + UsageEvents(chunk, ctxId))
    ensures CountStops(prefix + UsageEvents(chunk, ctxId)) <= 1
  {
    UsageEventsShape(chunk, ctxId);
    var u := UsageEvents(chunk, ctxId);
    CountStopsAppend(prefix, u);
    NoStopsCount(prefix);
    var s := prefix + u;
    forall i | 0 <= i < |prefix| ensures !IsStop(s[i]) {
      assert s[i] == prefix[i];
    }
    forall i | 0 <= i < |s| && IsStop(s[i])
      ensures i == |s| - 1 || (i == |s| - 2 && s[|s| - 1].data.UsageData?)
    {
      assert s[i] == u[i - |prefix|];
    }
  }

  lemma {:induction false} NoStopsCount(es: seq<Event>)
    requires forall i :: 0 <= i < |es| ==> !IsStop(es[i])
    ensures CountStops(es) == 0
  {
    if |es| > 0 {
      NoStopsCount(es[1..]);
    }
  }

  /**
   * No chunk produces two `stop` events, and a `stop` is always at the end, followed at
   * most by the usage event.
   */
  lemma AtMostOneStop(chunk: Chunk, ctxId: string, env: Env)
    requires "default" in env.blockReasonMessages
    ensures CountStops(TransformSpec(chunk, ctxId, env)) <= 1
    ensures StopIsTerminal(TransformSpec(chunk, ctxId, env))
  {
    var es := TransformSpec(chunk, ctxId, env);
    if chunk.lobeError.Some? || (chunk.promptFeedback.Some? && Truthy(chunk.promptFeedback.value.blockReason)) {
      assert es[1..] == [];
    } else if chunk.functionCalls.Some? {
      AppendUsageKeepsTerminal([Event(ctxId, ToolCalls(ToolCallsOf(chunk.functionCalls.value, env)))], chunk, ctxId);
    } else if FirstCandidate(chunk).Some? {
      CandidateAtMostOneStop(chunk, FirstCandidate(chunk).value, ctxId);
    } else {
      assert es[1..] == [];
    }
  }

  lemma CandidateAtMostOneStop(chunk: Chunk, c: Candidate, ctxId: string)
    requires FirstCandidate(chunk) == Some(c)
    ensures CountStops(CandidateEvents(chunk, c, ctxId)) <= 1
    ensures StopIsTerminal(CandidateEvents(chunk, c, ctxId))
  {
    var parts := PartsOf(c);
    var es := CandidateEvents(chunk, c, ctxId);
    if FirstThought(parts).Some? {
      assert es[1..] == [];
    } else if HasGrounding(c) {
      var g := c.groundingMetadata.value;
      AppendUsageKeepsTerminal([Event(ctxId, TextData(chunk.text)),
        Event(ctxId, Grounding(Citations(g.groundingChunks.value), g.webSearchQueries))], chunk, ctxId);
    } else if |parts| > 0 && HasImage(parts[0]) {
      var d := parts[0].inlineData.value;
      var image := Event(ctxId, Base64Image(Base64DataUrl(d.mimeType.value, d.data.value)));
      if !Truthy(c.finishReason) {
        assert es[1..] == [];
      } else if chunk.usageMetadata.Some? {
        AppendUsageKeepsTerminal([image], chunk, ctxId);
      } else {
        CountStopsPair(image, Event(ctxId, Stop(c.finishReason.value)));
      }
    } else if Truthy(c.finishReason) {
      if chunk.usageMetadata.Some? {
        var t := if Truthy(chunk.text) then [Event(ctxId, TextData(chunk.text))] else [];
        AppendUsageKeepsTerminal(t, chunk, ctxId);
      } else {
        assert es[1..] == [];
      }
    } else {
      assert es[1..] == [];
    }
  }

  /** The error marker and a block reason each give one error event, with the context id or "error". */
  lemma ErrorChunks(chunk: Chunk, ctxId: string, env: Env)
    requires "default" in env.blockReasonMessages
    requires chunk.lobeError.Some? || (chunk.promptFeedback.Some? && Truthy(chunk.promptFeedback.value.blockReason))
    ensures var es := TransformSpec(chunk, ctxId, env);
      |es| == 1 && IsError(es[0]) && es[0].id == (if ctxId == "" then "error" else ctxId)
    ensures chunk.lobeError.None? ==>
              TransformSpec(chunk, ctxId, env)[0].data
              == ProviderBizError(BlockReasonMessage(env.blockReasonMessages, chunk.promptFeedback.value.blockReason.value),
                                  chunk.promptFeedback.value, "google")
  {
  }

  /** Function calls give one `tool_calls` event, numbered by position, then the stop/usage pair. */
  lemma FunctionCallChunk(chunk: Chunk, ctxId: string, env: Env)
    requires "default" in env.blockReasonMessages
    requires chunk.lobeError.None? && !(chunk.promptFeedback.Some? && Truthy(chunk.promptFeedback.value.blockReason))
    requires chunk.functionCalls.Some?
    ensures var es := TransformSpec(chunk, ctxId, env);
      var calls := chunk.functionCalls.value;
      es[0].data.ToolCalls? && |es[0].data.calls| == |calls|
      && (forall i :: 0 <= i < |calls| ==>
                       es[0].data.calls[i].index == i
                       && es[0].data.calls[i].id == env.generateToolCallId(i, calls[i].name)
                       && es[0].data.calls[i].arguments == env.stringify(calls[i].args))
      && es[1..] == UsageEvents(chunk, ctxId)
  {
  }

  /** A thought part gives only the reasoning event of the first thought, before grounding and images. */
  lemma ThoughtChunk(chunk: Chunk, ctxId: string, env: Env, i: nat)
    requires "default" in env.blockReasonMessages
    requires chunk.lobeError.None? && !(chunk.promptFeedback.Some? && Truthy(chunk.promptFeedback.value.blockReason))
    requires chunk.functionCalls.None? && FirstCandidate(chunk).Some?
    requires var parts := PartsOf(FirstCandidate(chunk).value);
      i < |parts| && IsThought(parts[i]) && forall j :: 0 <= j < i ==> !IsThought(parts[j])
    ensures TransformSpec(chunk, ctxId, env)
      == [Event(ctxId, Reasoning(PartsOf(FirstCandidate(chunk).value)[i].text.value))]
  {
    var parts := PartsOf(FirstCandidate(chunk).value);
    FirstThoughtIsFirst(parts, i);
  }

  lemma {:induction false} FirstThoughtIsFirst(parts: seq<Part>, i: nat)
    requires i < |parts| && IsThought(parts[i]) && forall j :: 0 <= j < i ==> !IsThought(parts[j])
    ensures FirstThought(parts) == Some(parts[i].text.value)
  {
    if i > 0 {
      FirstThoughtIsFirst(parts[1..], i - 1);
    }
  }

  /** Grounding gives the text, then the citations as `{favicon: title, title, url: uri}`, then stop/usage. */
  lemma GroundingChunkEvents(chunk: Chunk, ctxId: string, env: Env)
    requires "default" in env.blockReasonMessages
    requires chunk.lobeError.None? && !(chunk.promptFeedback.Some? && Truthy(chunk.promptFeedback.value.blockReason))
    requires chunk.functionCalls.None? && FirstCandidate(chunk).Some?
    requires FirstThought(PartsOf(FirstCandidate(chunk).value)).None? && HasGrounding(FirstCandidate(chunk).value)
    ensures var es := TransformSpec(chunk, ctxId, env);
      var gs := FirstCandidate(chunk).value.groundingMetadata.value.groundingChunks.value;
      |es| >= 2 && es[0] == Event(ctxId, TextData(chunk.text)) && es[1].data.Grounding?
      && |es[1].data.citations| == |gs|
      && (forall k :: 0 <= k < |gs| && gs[k].web.Some? ==>
            es[1].data.citations[k] == Citation(gs[k].web.value.title, gs[k].web.value.title, gs[k].web.value.uri))
      && es[2..] == UsageEvents(chunk, ctxId)
  {
  }

  /** Inline image data with a finish reason gives the image and exactly one stop, with or without usage. */
  lemma ImageWithFinish(chunk: Chunk, ctxId: string, env: Env)
    requires "default" in env.blockReasonMessages
    requires chunk.lobeError.None? && !(chunk.promptFeedback.Some? && Truthy(chunk.promptFeedback.value.blockReason))
    requires chunk.functionCalls.None? && FirstCandidate(chunk).Some?
    requires var c := FirstCandidate(chunk).value;
      FirstThought(PartsOf(c)).None? && !HasGrounding(c) && |PartsOf(c)| > 0 && HasImage(PartsOf(c)[0])
      && Truthy(c.finishReason)
    ensures var es := TransformSpec(chunk, ctxId, env);
      var d := PartsOf(FirstCandidate(chunk).value)[0].inlineData.value;
      es[0].data == Base64Image("data:" + d.mimeType.value + ";base64," + d.data.value)
      && CountStops(es) == 1 && IsStop(es[1])
  {
    var es := TransformSpec(chunk, ctxId, env);
    assert !IsStop(es[0]);
    if chunk.usageMetadata.Some? {
      UsageEventsShape(chunk, ctxId);
      var u := UsageEvents(chunk, ctxId);
      CountStopsAppend([es[0]], u);
      assert [es[0]][1..] == [];
    } else {
      CountStopsPair(es[0], es[1]);
      assert es == [es[0], es[1]];
    }
  }

  /** A finished chunk without image: the non-empty text, then stop and usage; without usage, the stop alone. */
  lemma FinishWithoutImage(chunk: Chunk, ctxId: string, env: Env)
    requires "default" in env.blockReasonMessages
    requires chunk.lobeError.None? && !(chunk.promptFeedback.Some? && Truthy(chunk.promptFeedback.value.blockReason))
    requires chunk.functionCalls.None? && FirstCandidate(chunk).Some?
    requires var c := FirstCandidate(chunk).value;
      FirstThought(PartsOf(c)).None? && !HasGrounding(c) && !(|PartsOf(c)| > 0 && HasImage(PartsOf(c)[0]))
      && Truthy(c.finishReason)
    ensures var es := TransformSpec(chunk, ctxId, env);
      var reason := FirstCandidate(chunk).value.finishReason.value;
      (chunk.usageMetadata.None? ==> es == [Event(ctxId, Stop(reason))])
      && (chunk.usageMetadata.Some? ==>
            es == (if Truthy(chunk.text) then [Event(ctxId, TextData(chunk.text))] else [])
                  + [Event(ctxId, Stop(reason)), Event(ctxId, UsageData(ComputeUsage(chunk.usageMetadata.value)))])
  {
  }

  /** Any other chunk gives one text event carrying the text, or "" when it has none. */
  lemma PlainTextChunk(chunk: Chunk, ctxId: string, env: Env)
    requires "default" in env.blockReasonMessages
    requires chunk.lobeError.None? && !(chunk.promptFeedback.Some? && Truthy(chunk.promptFeedback.value.blockReason))
    requires chunk.functionCalls.None?
    requires FirstCandidate(chunk).Some? ==> var c := FirstCandidate(chunk).value;
      FirstThought(PartsOf(c)).None? && !HasGrounding(c) && !(|PartsOf(c)| > 0 && HasImage(PartsOf(c)[0]))
      && !Truthy(c.finishReason)
    ensures TransformSpec(chunk, ctxId, env) == [Event(ctxId, TextData(Some(chunk.text.GetOr(""))))]
  {
  }
}
