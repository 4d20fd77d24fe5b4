/**
 * `contextEngineering`: the fixed pipeline of eleven processors that turns the stored chat
 * messages into the messages sent to the model. Only the message-content stage is
 * modelled in full (module `MessageContent`); the other ten stages are foreign code and
 * are applied through one function parameter that receives the stage and its
 * configuration.
 */
module ContextEngineering {
  import opened Wrappers
  import MessageContent

  type ChatMessage = MessageContent.ChatMessage
  type PipelineContext = MessageContent.PipelineContext

  /** One processor of the pipeline, with the configuration it is constructed with. */
  datatype Stage =
    | HistoryTruncate(enableHistoryCount: Option<bool>, historyCount: Option<int>)
    | SystemRoleInjector(systemRole: Option<string>)
    | InboxGuideProvider(inboxGuideSystemRole: string, inboxSessionId: string,
                         isWelcomeQuestion: Option<bool>, sessionId: Option<string>)
    | ToolSystemRoleProvider(model: string, provider: string, tools: Option<seq<string>>)
    | HistorySummaryProvider(historySummary: Option<string>)
    | InputTemplateProcessor(inputTemplate: Option<string>)
    | PlaceholderVariablesProcessor
    | MessageContentProcessor(fileContextEnabled: bool, includeFileUrl: bool, model: string, provider: string)
    | ToolCallProcessor(model: string, provider: string)
    | ToolMessageReorder
    | MessageCleanupProcessor

  /** The call's arguments. */
  datatype Params = Params(
    messages: Option<seq<ChatMessage>>,
    tools: Option<seq<string>>,
    model: string,
    provider: string,
    systemRole: Option<string>,
    inputTemplate: Option<string>,
    enableHistoryCount: Option<bool>,
    historyCount: Option<int>)

  /** The fetch options the pipeline reads. */
  datatype FetchOptions = FetchOptions(isWelcomeQuestion: Option<bool>, sessionId: Option<string>,
                                       historySummary: Option<string>)

  /** The build flags and constants the pipeline reads. */
  datatype Edition = Edition(isServerMode: bool, isDesktop: bool, inboxGuideSystemRole: string, inboxSessionId: string)

  /** The processors, in the order they run. */
  function Pipeline(p: Params, options: Option<FetchOptions>, edition: Edition): (stages: seq<Stage>)
    ensures |stages| == 11
  {
    [ HistoryTruncate(p.enableHistoryCount, p.historyCount),
      SystemRoleInjector(p.systemRole),
      InboxGuideProvider(edition.inboxGuideSystemRole, edition.inboxSessionId,
        if options.Some? then options.value.isWelcomeQuestion else None,
        if options.Some? then options.value.sessionId else None),
      ToolSystemRoleProvider(p.model, p.provider, p.tools),
      HistorySummaryProvider(if options.Some? then options.value.historySummary else None),
      InputTemplateProcessor(p.inputTemplate),
      PlaceholderVariablesProcessor,
      MessageContentProcessor(edition.isServerMode, !edition.isDesktop, p.model, p.provider),
      ToolCallProcessor(p.model, p.provider),
      ToolMessageReorder,
      MessageCleanupProcessor ]
  }

  /** The place of a processor kind in the order of the pipeline. */
  function KindPosition(stage: Stage): nat {
    match stage
    case HistoryTruncate(_, _) => 0
    case SystemRoleInjector(_) => 1
    case InboxGuideProvider(_, _, _, _) => 2
    case ToolSystemRoleProvider(_, _, _) => 3
    case HistorySummaryProvider(_) => 4
    case InputTemplateProcessor(_) => 5
    case PlaceholderVariablesProcessor => 6
    case MessageContentProcessor(_, _, _, _) => 7
    case ToolCallProcessor(_, _) => 8
    case ToolMessageReorder => 9
    case MessageCleanupProcessor => 10
  }

  /**
   * History truncation runs first and only there, so every message a later stage injects
   * reaches the model untruncated.
   */
  lemma TruncationFirst(p: Params, options: Option<FetchOptions>, edition: Edition)
    ensures var s := Pipeline(p, options, edition);
      s[0] == HistoryTruncate(p.enableHistoryCount, p.historyCount)
      && forall i :: 0 < i < |s| ==> !s[i].HistoryTruncate?
  {
  }

  /**
   * The injectors run in the order system role, inbox guide, tool system role, history
   * summary, after truncation and before the input template; the input template runs
   * before placeholder expansion, which runs before content processing; tool calls are
   * processed before tool messages are reordered, and cleanup is the last stage.
   */
  lemma StageOrder(p: Params, options: Option<FetchOptions>, edition: Edition)
    ensures var s := Pipeline(p, options, edition);
      s[1].SystemRoleInjector? && s[2].InboxGuideProvider? && s[3].ToolSystemRoleProvider?
      && s[4].HistorySummaryProvider? && s[5].InputTemplateProcessor?
      && s[6].PlaceholderVariablesProcessor? && s[7].MessageContentProcessor?
      && s[8].ToolCallProcessor? && s[9].ToolMessageReorder? && s[10].MessageCleanupProcessor?
  {
  }

  /** Every kind of processor occurs once, at its own place: no stage is repeated or moved. */
  lemma EachKindOnce(p: Params, options: Option<FetchOptions>, edition: Edition)
    ensures var s := Pipeline(p, options, edition);
      forall i, j :: 0 <= i < |s| && 0 <= j < |s| && KindPosition(s[i]) == KindPosition(s[j]) ==> i == j
  {
    var s := Pipeline(p, options, edition);
    forall i | 0 <= i < |s| ensures KindPosition(s[i]) == i {
    }
  }

  /** File context is on exactly in server mode; file URLs are included exactly off the desktop app. */
  lemma ContentStageConfig(p: Params, options: Option<FetchOptions>, edition: Edition)
    ensures var c := Pipeline(p, options, edition)[7];
      (c.fileContextEnabled <==> edition.isServerMode) && (c.includeFileUrl <==> !edition.isDesktop)
      && c.model == p.model && c.provider == p.provider
  {
  }

  /** Runs the stages in order; a failing stage fails the whole run. */
  function Run(stages: seq<Stage>, ctx: PipelineContext,
               apply: (Stage, PipelineContext) -> PipelineContext,
               isCanUseVision: (string, string) -> bool,
               env: MessageContent.Env): Result<PipelineContext, string>
  {
    if |stages| == 0 then Ok(ctx)
    else
      var next := match stages[0]
        case MessageContentProcessor(enabled, includeUrl, model, provider) =>
          MessageContent.ProcessSpec(MessageContent.Config(model, provider, isCanUseVision, enabled, includeUrl), env, ctx)
        case _ => Ok(apply(stages[0], ctx));
      match next
      case Err(e) => Err(e)
      case Ok(c) => Run(stages[1..], c, apply, isCanUseVision, env)
  }

  /** Running two lists of stages one after the other is running their concatenation. */
  lemma {:induction false} RunAppend(a: seq<Stage>, b: seq<Stage>, ctx: PipelineContext,
                                     apply: (Stage, PipelineContext) -> PipelineContext,
                                     isCanUseVision: (string, string) -> bool, env: MessageContent.Env)
    ensures Run(a + b, ctx, apply, isCanUseVision, env)
      == match Run(a, ctx, apply, isCanUseVision, env)
         case Err(e) => Err(e)
         case Ok(c) => Run(b, c, apply, isCanUseVision, env)
    decreases |a|
  {
    if |a| > 0 {
      assert (a + b)[0] == a[0];
      assert (a + b)[1..] == a[1..] + b;
      var next := match a[0]
        case MessageContentProcessor(enabled, includeUrl, model, provider) =>
          MessageContent.ProcessSpec(MessageContent.Config(model, provider, isCanUseVision, enabled, includeUrl), env, ctx)
        case _ => Ok(apply(a[0], ctx));
      if next.Ok? {
        RunAppend(a[1..], b, next.value, apply, isCanUseVision, env);
      }
    } else {
      assert a + b == b;
    }
  }

  /** The context the pipeline starts from. */
  function InitialContext(p: Params): PipelineContext {
    var messages := p.messages.GetOr([]);
    MessageContent.PipelineContext(
      MessageContent.AgentState(messages, Some(p.model), Some(p.provider), p.systemRole, p.tools),
      messages,
      MessageContent.Metadata(p.model, None, 10_000_000, map[]),
      false)
  }

  /** `contextEngineering(params, options)`: the messages of the pipeline's result. */
  function ContextEngineering(p: Params, options: Option<FetchOptions>, edition: Edition,
                              apply: (Stage, PipelineContext) -> PipelineContext,
                              isCanUseVision: (string, string) -> bool,
                              env: MessageContent.Env): (r: Result<seq<ChatMessage>, string>)
  {
    match Run(Pipeline(p, options, edition), InitialContext(p), apply, isCanUseVision, env)
    case Err(e) => Err(e)
    case Ok(c) => Ok(c.messages)
  }

  /** Missing messages start the pipeline from an empty list, with a ten-million-token budget. */
  lemma InitialContextDefaults(p: Params)
    ensures p.messages.None? ==> InitialContext(p).messages == [] && InitialContext(p).initialState.messages == []
    ensures p.messages.Some? ==> InitialContext(p).messages == p.messages.value
    ensures InitialContext(p).metadata.maxTokens == 10_000_000 && InitialContext(p).metadata.model == p.model
  {
  }

  /**
   * The result is the message list of the context left by the last stage, cleanup, which
   * sees the output of the first ten stages.
   */
  lemma ResultIsCleanupOutput(p: Params, options: Option<FetchOptions>, edition: Edition,
                              apply: (Stage, PipelineContext) -> PipelineContext,
                              isCanUseVision: (string, string) -> bool, env: MessageContent.Env)
    ensures var s := Pipeline(p, options, edition);
      match Run(s[..10], InitialContext(p), apply, isCanUseVision, env)
      case Err(e) => ContextEngineering(p, options, edition, apply, isCanUseVision, env) == Err(e)
      case Ok(c) => ContextEngineering(p, options, edition, apply, isCanUseVision, env)
                    == Ok(apply(MessageCleanupProcessor, c).messages)
  {
    var s := Pipeline(p, options, edition);
    assert s == s[..10] + [MessageCleanupProcessor];
    RunAppend(s[..10], [MessageCleanupProcessor], InitialContext(p), apply, isCanUseVision, env);
    match Run(s[..10], InitialContext(p), apply, isCanUseVision, env)
    case Err(e) =>
    case Ok(c) =>
      assert [MessageCleanupProcessor][1..] == [];
  }
}
