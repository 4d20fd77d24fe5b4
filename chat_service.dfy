/**
 * The request-shaping decisions of the chat service: search gating, the plugin list,
 * the extend-params record filled from the chat config, tool selection, trace mapping,
 * and the model, stream and SDK choices made before a chat completion is sent.
 * Store selectors are plain values or functions passed in.
 */
module ChatService {
  import opened Wrappers
  import opened Strings
  import ChatHelper

  /** The provider ids of the `ModelProvider` enumeration the service names. */
  const OpenAI: string := "openai"
  const Azure: string := "azure"
  const Volcengine: string := "volcengine"
  const AzureAI: string := "azureai"
  const Qwen: string := "qwen"

  /** Providers whose requests carry a deployment name instead of the model id. */
  const DeploymentProviders: seq<string> := [Azure, Volcengine, AzureAI, Qwen]

  /** The fields of the current agent's chat config that the service reads; `None` is undefined. */
  datatype ChatConfig = ChatConfig(
    searchMode: string,
    useModelBuiltinSearch: bool,
    enableReasoning: bool,
    reasoningBudgetToken: Option<int>,
    disableContextCaching: bool,
    reasoningEffort: Option<string>,
    gpt5ReasoningEffort: Option<string>,
    textVerbosity: Option<string>,
    thinking: Option<string>,
    thinkingBudget: Option<int>,
    urlContext: bool,
    enableStreaming: Option<bool>)

  predicate Truthy(s: Option<string>) {
    s.Some? && s.value != ""
  }

  // ---------------------------------------------------------------- search

  datatype SearchPlan = SearchPlan(enabledSearch: bool, useModelSearch: bool, useApplicationTool: bool)

  function PlanSearch(c: ChatConfig, providerHasBuiltinSearch: bool, modelHasBuiltinSearch: bool): SearchPlan {
    var enabledSearch := c.searchMode != "off";
    var useModelSearch := (providerHasBuiltinSearch || modelHasBuiltinSearch) && c.useModelBuiltinSearch;
    SearchPlan(enabledSearch, useModelSearch, enabledSearch && !useModelSearch)
  }

  /** The `enabledSearch` field of the completion payload: `true` or undefined. */
  function EnabledSearchField(p: SearchPlan): Option<bool> {
    if p.enabledSearch && p.useModelSearch then Some(true) else None
  }

  /**
   * Model search is used iff some built-in search exists and the user chose it; the
   * application's web-browsing tool is used iff search is on and model search is not; the
   * payload asks for search iff search is on and model search is used; never both.
   */
  lemma SearchGating(c: ChatConfig, providerBuiltin: bool, modelBuiltin: bool)
    ensures var p := PlanSearch(c, providerBuiltin, modelBuiltin);
      (p.useModelSearch <==> (providerBuiltin || modelBuiltin) && c.useModelBuiltinSearch)
      && (p.useApplicationTool <==> c.searchMode != "off" && !p.useModelSearch)
      && (EnabledSearchField(p) == Some(true) <==> c.searchMode != "off" && p.useModelSearch)
      && (EnabledSearchField(p) != Some(false))
      && !(p.useApplicationTool && EnabledSearchField(p).Some?)
      && (c.searchMode == "off" ==> !p.useApplicationTool && EnabledSearchField(p).None?)
  {
  }

  // ---------------------------------------------------------------- extend params

  /** A `thinking` value: `{budget_tokens, type}`, or `{type}` alone when set from the `thinking` config. */
  datatype Thinking = Thinking(budgetTokens: Option<int>, kind: string)

  /** The extend-params record; absent keys are `None`. */
  datatype ExtendParams = ExtendParams(
    thinking: Option<Thinking>,
    enabledContextCaching: Option<bool>,
    reasoningEffort: Option<string>,
    verbosity: Option<string>,
    thinkingBudget: Option<int>,
    urlContext: Option<bool>)

  const NoExtendParams: ExtendParams := ExtendParams(None, None, None, None, None, None)

  /** `chatConfig.reasoningBudgetToken || 1024`: an undefined or zero budget becomes 1024. */
  function BudgetOrDefault(b: Option<int>): int {
    if b.Some? && b.value != 0 then b.value else 1024
  }

  /** The `thinking` value the reasoning switches produce, before the `thinking` config is applied. */
  function ReasoningThinking(params: seq<string>, c: ChatConfig): Option<Thinking> {
    if "enableReasoning" in params then
      if c.enableReasoning then Some(Thinking(Some(BudgetOrDefault(c.reasoningBudgetToken)), "enabled"))
      else Some(Thinking(Some(0), "disabled"))
    else if "reasoningBudgetToken" in params then Some(Thinking(Some(BudgetOrDefault(c.reasoningBudgetToken)), "enabled"))
    else None
  }

  /**
   * The record the assignments leave, written key by key as "the last assignment that
   * fires wins": a later `thinking` or `gpt5ReasoningEffort` assignment takes precedence.
   */
  function ExtendParamsSpec(hasExtendParams: bool, params: seq<string>, c: ChatConfig): ExtendParams {
    if !hasExtendParams then NoExtendParams
    else ExtendParams(
      if "thinking" in params && Truthy(c.thinking) then Some(Thinking(None, c.thinking.value))
      else ReasoningThinking(params, c),
      if "disableContextCaching" in params && c.disableContextCaching then Some(false) else None,
      if "gpt5ReasoningEffort" in params && Truthy(c.gpt5ReasoningEffort) then c.gpt5ReasoningEffort
      else if "reasoningEffort" in params && Truthy(c.reasoningEffort) then c.reasoningEffort
      else None,
      if "textVerbosity" in params && Truthy(c.textVerbosity) then c.textVerbosity else None,
      if "thinkingBudget" in params then c.thinkingBudget else None,
      if "urlContext" in params && c.urlContext then Some(true) else None)
  }

  /** Fills `extendParams` by successive assignments, in the order the service makes them. */
  method ComputeExtendParams(hasExtendParams: bool, params: seq<string>, c: ChatConfig) returns (e: ExtendParams)
    ensures e == ExtendParamsSpec(hasExtendParams, params, c)
  {
    e := NoExtendParams;
    if hasExtendParams {
      if "enableReasoning" in params {
        if c.enableReasoning {
          e := e.(thinking := Some(Thinking(Some(BudgetOrDefault(c.reasoningBudgetToken)), "enabled")));
        } else {
          e := e.(thinking := Some(Thinking(Some(0), "disabled")));
        }
      } else if "reasoningBudgetToken" in params {
        e := e.(thinking := Some(Thinking(Some(BudgetOrDefault(c.reasoningBudgetToken)), "enabled")));
      }
      ghost var spec := ExtendParamsSpec(hasExtendParams, params, c);
      assert e == NoExtendParams.(thinking := ReasoningThinking(params, c));
      if "disableContextCaching" in params && c.disableContextCaching {
        e := e.(enabledContextCaching := Some(false));
      }
      assert e == NoExtendParams.(thinking := ReasoningThinking(params, c), enabledContextCaching := spec.enabledContextCaching);
      if "reasoningEffort" in params && Truthy(c.reasoningEffort) {
        e := e.(reasoningEffort := c.reasoningEffort);
      }
      if "gpt5ReasoningEffort" in params && Truthy(c.gpt5ReasoningEffort) {
        e := e.(reasoningEffort := c.gpt5ReasoningEffort);
      }
      assert e == NoExtendParams.(thinking := ReasoningThinking(params, c), enabledContextCaching := spec.enabledContextCaching,
                                  reasoningEffort := spec.reasoningEffort);
      if "textVerbosity" in params && Truthy(c.textVerbosity) {
        e := e.(verbosity := c.textVerbosity);
      }
      if "thinking" in params && Truthy(c.thinking) {
        e := e.(thinking := Some(Thinking(None, c.thinking.value)));
      }
      assert e == spec.(thinkingBudget := None, urlContext := None);
      if "thinkingBudget" in params && c.thinkingBudget.Some? {
        e := e.(thinkingBudget := c.thinkingBudget);
      }
      if "urlContext" in params && c.urlContext {
        e := e.(urlContext := Some(true));
      }
    }
  }

  /** A model without extend params gets none of the keys. */
  lemma NoExtendParamsWithoutFlag(params: seq<string>, c: ChatConfig)
    ensures ExtendParamsSpec(false, params, c) == NoExtendParams
  {
  }

  /**
   * The reasoning table: with `enableReasoning` the value is enabled with `budget || 1024`
   * when the switch is on and disabled with budget 0 when off; with only `reasoningBudgetToken`
   * it is always enabled; with neither no reasoning value is set.
   */
  lemma ThinkingTable(params: seq<string>, c: ChatConfig)
    requires !("thinking" in params && Truthy(c.thinking))
    ensures var t := ExtendParamsSpec(true, params, c).thinking;
      ("enableReasoning" in params && c.enableReasoning ==> t == Some(Thinking(Some(BudgetOrDefault(c.reasoningBudgetToken)), "enabled")))
      && ("enableReasoning" in params && !c.enableReasoning ==> t == Some(Thinking(Some(0), "disabled")))
      && ("enableReasoning" !in params && "reasoningBudgetToken" in params ==> t == Some(Thinking(Some(BudgetOrDefault(c.reasoningBudgetToken)), "enabled")))
      && ("enableReasoning" !in params && "reasoningBudgetToken" !in params ==> t.None?)
  {
  }

  /**
   * Whenever the reasoning switches enable thinking, its budget is the configured budget
   * when that is set and non-zero, and 1024 when it is undefined or 0.
   */
  lemma BudgetDefault(params: seq<string>, c: ChatConfig)
    requires !("thinking" in params && Truthy(c.thinking))
    requires ("enableReasoning" in params && c.enableReasoning)
             || ("enableReasoning" !in params && "reasoningBudgetToken" in params)
    ensures var t := ExtendParamsSpec(true, params, c).thinking;
      t.Some? && t.value.kind == "enabled" && t.value.budgetTokens.Some?
      && (c.reasoningBudgetToken.None? || c.reasoningBudgetToken.value == 0 ==> t.value.budgetTokens.value == 1024)
      && (c.reasoningBudgetToken.Some? && c.reasoningBudgetToken.value != 0 ==>
            t.value.budgetTokens.value == c.reasoningBudgetToken.value)
  {
    ThinkingTable(params, c);
  }

  /**
   * `gpt5ReasoningEffort` overrides `reasoningEffort`, and a `thinking` config overrides
   * whatever the reasoning switches set.
   */
  lemma Overrides(params: seq<string>, c: ChatConfig)
    ensures "gpt5ReasoningEffort" in params && Truthy(c.gpt5ReasoningEffort) ==>
              ExtendParamsSpec(true, params, c).reasoningEffort == c.gpt5ReasoningEffort
    ensures !("gpt5ReasoningEffort" in params && Truthy(c.gpt5ReasoningEffort)) ==>
              ExtendParamsSpec(true, params, c).reasoningEffort
                == (if "reasoningEffort" in params && Truthy(c.reasoningEffort) then c.reasoningEffort else None)
    ensures "thinking" in params && Truthy(c.thinking) ==>
              ExtendParamsSpec(true, params, c).thinking == Some(Thinking(None, c.thinking.value))
  {
  }

  /**
   * `thinkingBudget` is copied whenever it is defined, 0 included; `enabledContextCaching`
   * is set, to false, exactly when the model lists the param and the config flag is on.
   */
  lemma BudgetAndCaching(params: seq<string>, c: ChatConfig)
    ensures var e := ExtendParamsSpec(true, params, c);
      (e.thinkingBudget.Some? <==> "thinkingBudget" in params && c.thinkingBudget.Some?)
      && ("thinkingBudget" in params && c.thinkingBudget == Some(0) ==> e.thinkingBudget == Some(0))
      && (e.enabledContextCaching.Some? <==> "disableContextCaching" in params && c.disableContextCaching)
      && e.enabledContextCaching != Some(true)
  {
  }

  // ---------------------------------------------------------------- createAssistantMessage

  /** What `createAssistantMessage` reads from the stores, as values. */
  datatype AssistantInputs = AssistantInputs(
    enabledPlugins: Option<seq<string>>,
    chatConfig: ChatConfig,
    providerHasBuiltinSearch: bool,
    modelHasBuiltinSearch: bool,
    historyCount: int,
    hasExtendParams: bool,
    modelExtendParams: seq<string>,
    enabledSchema: seq<string> -> seq<string>,
    canUseFC: bool,
    webBrowsingId: string)

  /** The parts of the completion request `createAssistantMessage` decides. */
  datatype AssistantRequest = AssistantRequest(
    pluginIds: seq<string>,
    historyCount: int,
    tools: Option<seq<string>>,
    extend: ExtendParams,
    enabledSearch: Option<bool>)

  /** `prepareTools`: the enabled schemas when there are some and the model can call functions. */
  function PrepareTools(filterTools: seq<string>, canUseFC: bool): Option<seq<string>> {
    if |filterTools| > 0 && canUseFC then Some(filterTools) else None
  }

  lemma PrepareToolsContract(filterTools: seq<string>, canUseFC: bool)
    ensures PrepareTools(filterTools, canUseFC).Some? <==> |filterTools| > 0 && canUseFC
    ensures PrepareTools(filterTools, canUseFC).Some? ==> PrepareTools(filterTools, canUseFC).value == filterTools
    ensures PrepareTools(filterTools, canUseFC) != Some([])
  {
  }

  /** The enabled plugins, with the web-browsing tool appended when the application search is used. */
  function PluginIds(enabledPlugins: Option<seq<string>>, useApplicationTool: bool, webBrowsingId: string): seq<string> {
    enabledPlugins.GetOr([]) + (if useApplicationTool then [webBrowsingId] else [])
  }

  /** Builds the request the way the service does, pushing onto a copy of the plugin list. */
  method CreateAssistantMessage(inputs: AssistantInputs) returns (req: AssistantRequest)
    ensures var plan := PlanSearch(inputs.chatConfig, inputs.providerHasBuiltinSearch, inputs.modelHasBuiltinSearch);
      req.pluginIds == PluginIds(inputs.enabledPlugins, plan.useApplicationTool, inputs.webBrowsingId)
      && req.enabledSearch == EnabledSearchField(plan)
    ensures req.historyCount == inputs.historyCount + 2
    ensures req.tools == PrepareTools(inputs.enabledSchema(req.pluginIds), inputs.canUseFC)
    ensures req.extend == ExtendParamsSpec(inputs.hasExtendParams, inputs.modelExtendParams, inputs.chatConfig)
  {
    var c := inputs.chatConfig;
    var plan := PlanSearch(c, inputs.providerHasBuiltinSearch, inputs.modelHasBuiltinSearch);
    var pluginIds := if inputs.enabledPlugins.Some? then inputs.enabledPlugins.value else [];
    if plan.useApplicationTool {
      pluginIds := pluginIds + [inputs.webBrowsingId];
    }
    var tools := PrepareTools(inputs.enabledSchema(pluginIds), inputs.canUseFC);
    var extend := ComputeExtendParams(inputs.hasExtendParams, inputs.modelExtendParams, c);
    req := AssistantRequest(pluginIds, inputs.historyCount + 2, tools, extend, EnabledSearchField(plan));
  }

  /** The enabled plugins come first, in order; the web-browsing id is appended iff the application search is used. */
  lemma PluginIdsContract(enabledPlugins: Option<seq<string>>, useApplicationTool: bool, webBrowsingId: string)
    ensures var ids := PluginIds(enabledPlugins, useApplicationTool, webBrowsingId);
      ids[..|enabledPlugins.GetOr([])|] == enabledPlugins.GetOr([])
      && |ids| == |enabledPlugins.GetOr([])| + (if useApplicationTool then 1 else 0)
      && (useApplicationTool ==> ids[|ids| - 1] == webBrowsingId)
  {
  }

  // ---------------------------------------------------------------- mapTrace

  datatype TracePayload = TracePayload(
    enabled: Option<bool>,
    tags: Option<seq<string>>,
    userId: Option<string>,
    sessionId: Option<string>,
    topicId: Option<string>,
    traceId: Option<string>,
    traceName: Option<string>)

  const EmptyTrace: TracePayload := TracePayload(None, None, None, None, None, None, None)

  function OptionList(o: Option<string>): seq<string> {
    if o.Some? then [o.value] else []
  }

  /** `mapTrace`: spreads the given trace and sets `enabled`, and when tracing is allowed the tags and user id. */
  function MapTrace(trace: Option<TracePayload>, tag: Option<string>, agentTags: Option<seq<string>>,
                    allowTrace: bool, userId: Option<string>): TracePayload
  {
    var base := trace.GetOr(EmptyTrace);
    if !allowTrace then base.(enabled := Some(false))
    else base.(enabled := Some(true),
               tags := Some(NonEmpty(OptionList(tag) + base.tags.GetOr([]) + agentTags.GetOr([]))),
               userId := userId)
  }

  /**
   * A disallowed trace keeps every field except `enabled`, which is false. An allowed trace
   * is enabled, carries the user id, and its tags are the non-empty entries of the tag, the
   * trace's own tags and the agent's tags, in that order; the other fields are kept.
   */
  lemma MapTraceContract(trace: Option<TracePayload>, tag: Option<string>, agentTags: Option<seq<string>>,
                         allowTrace: bool, userId: Option<string>)
    ensures var base := trace.GetOr(EmptyTrace);
      var r := MapTrace(trace, tag, agentTags, allowTrace, userId);
      r.sessionId == base.sessionId && r.topicId == base.topicId && r.traceId == base.traceId
      && r.traceName == base.traceName
      && (!allowTrace ==> r == base.(enabled := Some(false)))
      && (allowTrace ==>
            r.enabled == Some(true) && r.userId == userId
            && r.tags == Some(NonEmpty(OptionList(tag)) + NonEmpty(base.tags.GetOr([])) + NonEmpty(agentTags.GetOr([])))
            && (forall t :: t in r.tags.value ==> t != ""))
  {
    var base := trace.GetOr(EmptyTrace);
    NonEmptyAppend(OptionList(tag) + base.tags.GetOr([]), agentTags.GetOr([]));
    NonEmptyAppend(OptionList(tag), base.tags.GetOr([]));
  }

  // ---------------------------------------------------------------- getChatCompletion

  /** The caller's part of the payload that `getChatCompletion` reads. */
  datatype CompletionInput = CompletionInput(provider: Option<string>, model: Option<string>, stream: Option<bool>)

  datatype CompletionPayload = CompletionPayload(provider: string, model: string, stream: bool, apiMode: Option<string>)

  /** Where the request is sent from. */
  datatype Fetcher = DesktopRpc | ClientRuntime | ServerRoute

  /** The request model: the given model (or the default), replaced by its deployment name for deployment providers. */
  function RequestModel(input: CompletionInput, defaultModel: string, deprecated: bool,
                        user: ChatHelper.UserStoreLookups, infra: ChatHelper.InfraStoreLookups): string
  {
    var provider := input.provider.GetOr(OpenAI);
    var model := if Truthy(input.model) then input.model.value else defaultModel;
    if provider in DeploymentProviders then ChatHelper.FindDeploymentName(deprecated, user, infra, model, provider)
    else model
  }

  /**
   * The payload `getChatCompletion` sends: defaults merged with the caller's fields, where
   * an undefined field of the caller leaves the default in place.
   */
  function GetChatCompletionPayload(input: CompletionInput, c: ChatConfig, enableResponseApi: string -> bool,
                                    defaultModel: string, deprecated: bool,
                                    user: ChatHelper.UserStoreLookups, infra: ChatHelper.InfraStoreLookups): CompletionPayload
  {
    var provider := input.provider.GetOr(OpenAI);
    CompletionPayload(
      provider,
      RequestModel(input, defaultModel, deprecated, user, infra),
      if input.stream.Some? then input.stream.value else c.enableStreaming != Some(false),
      if enableResponseApi(provider) then Some("responses") else None)
  }

  /**
   * The provider defaults to OpenAI; only Azure, Volcengine, AzureAI and Qwen look up a
   * deployment name, every other provider sends the model (or the default model) as is;
   * streaming defaults to on unless the config turns it off explicitly.
   */
  lemma CompletionPayloadContract(input: CompletionInput, c: ChatConfig, enableResponseApi: string -> bool,
                                  defaultModel: string, deprecated: bool,
                                  user: ChatHelper.UserStoreLookups, infra: ChatHelper.InfraStoreLookups)
    ensures var p := GetChatCompletionPayload(input, c, enableResponseApi, defaultModel, deprecated, user, infra);
      var model := if Truthy(input.model) then input.model.value else defaultModel;
      (input.provider.None? ==> p.provider == OpenAI && p.model == model)
      && (p.provider !in DeploymentProviders ==> p.model == model)
      && (p.provider in DeploymentProviders ==> p.model == ChatHelper.FindDeploymentName(deprecated, user, infra, model, p.provider))
      && (input.stream.None? ==> (p.stream <==> c.enableStreaming != Some(false)))
      && (input.stream.None? && c.enableStreaming.None? ==> p.stream)
      && (p.apiMode.Some? <==> enableResponseApi(p.provider))
  {
    assert OpenAI !in DeploymentProviders by {
      assert |OpenAI| == 6 && |Azure| == 5 && |Volcengine| == 10 && |AzureAI| == 7 && |Qwen| == 4;
    }
  }

  /** The desktop app always uses its RPC fetch; otherwise the client runtime when fetch-on-client is on. */
  function ChooseFetcher(isDesktop: bool, enableFetchOnClient: bool): Fetcher {
    if isDesktop then DesktopRpc else if enableFetchOnClient then ClientRuntime else ServerRoute
  }

  /** The SDK a custom provider uses in the current edition: its configured type, else OpenAI's. */
  function SdkType(provider: string, deprecated: bool, isBuiltin: bool, configuredSdkType: Option<string>): string {
    if !deprecated && !isBuiltin then (if Truthy(configuredSdkType) then configuredSdkType.value else OpenAI)
    else provider
  }

  lemma FetcherAndSdk(isDesktop: bool, enableFetchOnClient: bool, provider: string, deprecated: bool,
                      isBuiltin: bool, configuredSdkType: Option<string>)
    ensures ChooseFetcher(isDesktop, enableFetchOnClient) == ClientRuntime <==> !isDesktop && enableFetchOnClient
    ensures isDesktop ==> ChooseFetcher(isDesktop, enableFetchOnClient) == DesktopRpc
    ensures deprecated || isBuiltin ==> SdkType(provider, deprecated, isBuiltin, configuredSdkType) == provider
    ensures !deprecated && !isBuiltin && !Truthy(configuredSdkType) ==> SdkType(provider, deprecated, isBuiltin, configuredSdkType) == OpenAI
  {
  }
}
