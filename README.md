# LobeChat request and response core, modelled in Dafny

LobeChat is a chat client that talks to many LLM providers. This project models the parts of
it that decide what is sent to a provider and how the answer comes back:

- **Router runtime.** A dispatcher over an ordered, non-empty list of backend registrations.
  A model id goes to the first registration whose model list contains it, and otherwise to
  the last one. Model lists that a resolver computes are cached per registration id, and
  `clearModelCache` clears one id or all of them. Chat, image, embeddings and speech calls
  are forwarded to the chosen backend, and an optional `handleError` hook rewrites failures.
  (`RouterRuntime`, modelled as a class.)
- **Context assembly.** A fixed pipeline of eleven processors (`ContextEngineering`). One of
  them, the message-content processor (`MessageContent`), handles:
  - vision gating;
  - image parts, with local images inlined as RFC 2397 data URLs;
  - the empty-text rule for assistant messages;
  - the reasoning `thinking` part;
  - file context;
  - three message counters.
- **Gemini stream normaliser** (`GoogleStream`). Turns one vendor chunk into canonical events:
  errors, block reasons, tool calls, reasoning, grounding citations, inline images, text,
  and the stop/usage pair. Token accounting uses naturals only.
- **Model lists.**
  - `ModelParse`: keyword matching with `^` (anchored) and `!` (exclusion), provider
    detection, and model-card processing.
  - `ParseModels`: the `+id=name<tokens:cap:…>` / `-id` / `-all` model-string language and
    its merge into a default list.
  - `ModelListByType`: filtering and de-duplication by provider and type.
- **Request and response shaping.**
  - `ChatService`: search gating, the extend-params table, tools, tracing and payload flags.
  - `ChatHelper`: deployment-name lookup and capability lookups.
  - Provider hooks: `Moonshot`, `Perplexity`, `AkashChat`, `CometApi` and `RuntimeCommon`
    shape payloads; `Ai302` classifies errors.
  - The image builders and response parsers: `OpenAICompatibleImage` and
    `SiliconCloudImage`.
- **Share links** (`Share`). Hashtag stringification and the query map of each social network.

Shared modules:

- `Wrappers`: `Option` and `Result`.
- `Strings`: the JavaScript string operations the code relies on, including first-occurrence
  `replace`, `split`, `join`, `trim` and `parseInt`.
- `DataUrls`: `data:<mime>;base64,<data>` as in section 2 of RFC 2397, with a proved
  parse/build round trip.

The source mixes styles, and the model follows each file's own style:

- **Classes and methods.** The router keeps its runtime list, model cache and resolver log as
  fields of a `class` that its methods update.
- **Methods proved against specification functions.** Code that updates local state step by
  step becomes a method whose `ensures` ties its result to a specification function, and the
  properties are then proved about that function:
  - the loops of `isKeywordListMatch`, `detectModelProvider`, `parseModelString` and
    `transformToAiModelList`;
  - the `extendParams` assignments of `createAssistantMessage`;
  - the in-place edits of `userInput` in `generateByImageMode`;
  - the SiliconCloud body and error-message assignments;
  - the message loop of the content processor;
  - the `usageChunks` pushes of the Gemini normaliser.
- **Functions and lemmas.** Pure code becomes functions, with lemmas about them.

I/O is not modelled. The network, the stores, library calls and edition flags are
parameters:

- `fetch`;
- the image-to-base64 helper;
- the provider catalogues;
- the Zustand selectors;
- `isServerMode`, `isDesktop` and `isDeprecatedEdition`;
- `camelCase`;
- the date formatter;
- `generateToolCallId`;
- `JSON.stringify`.

Two source files have no implementation: `createRuntime.test.ts` and `MessageContent.test.ts`
are tests. There the model follows what the tests assert and no more.

## Model

| member | source | states |
|---|---|---|
| RouterRuntime.Create | packages/model-runtime/src/RouterRuntime/createRuntime.test.ts:12-20 | An empty registration list fails with "empty providers"; a non-empty one builds a router with the given id and handler, one runtime per registration, an empty cache and an empty resolver log. |
| RouterRuntime.EmptyRoutersScenario | packages/model-runtime/src/RouterRuntime/createRuntime.test.ts:12-20 | The empty-list construction of the tests is the "empty providers" error. |
| RouterRuntime.BackendOptions | packages/model-runtime/src/RouterRuntime/createRuntime.test.ts:47-77 | Each backend gets the registration's options, overridden by the constructor options, with the router `id` added. |
| RouterRuntime.OptionsScenario | packages/model-runtime/src/RouterRuntime/createRuntime.test.ts:47-77 | The options merge of the test example: the registration's `baseURL`, the caller's `apiKey`, the router's `id`. |
| RouterRuntime.Router.constructor | packages/model-runtime/src/RouterRuntime/createRuntime.test.ts:22-77 | One runtime item per registration, in order; the cache and resolver log start empty. |
| RouterRuntime.Router.GetModels | packages/model-runtime/src/RouterRuntime/createRuntime.test.ts:81-168 | A static list is returned as is; no declaration gives []; a resolver runs only when its id is not cached, and its result is cached. |
| RouterRuntime.LookupKeepsCache | packages/model-runtime/src/RouterRuntime/createRuntime.test.ts:108-143 | A lookup adds only the looked-up id to the cache and changes no other entry. |
| RouterRuntime.LookupTwiceResolvesOnce | packages/model-runtime/src/RouterRuntime/createRuntime.test.ts:108-143 | Two lookups in a row run the resolver at most once and return the same list. |
| RouterRuntime.LookupUncachedResolves | packages/model-runtime/src/RouterRuntime/createRuntime.test.ts:108-143 | An uncached resolver id is resolved to that resolver's list. |
| RouterRuntime.ResolverCacheScenario | packages/model-runtime/src/RouterRuntime/createRuntime.test.ts:108-143 | Two calls return the resolved list twice with one resolver invocation; after clearing, it runs again. |
| RouterRuntime.RouteFrom | packages/model-runtime/src/RouterRuntime/createRuntime.test.ts:171-239 | The scan settles on an index between its start and the last registration. |
| RouterRuntime.RouteFirstMatch | packages/model-runtime/src/RouterRuntime/createRuntime.test.ts:171-239 | From a cache that agrees with the resolvers (a new router's empty cache), the first registration whose declared list (static, resolved or none) contains the model, else the last. |
| RouterRuntime.RouteStatic | packages/model-runtime/src/RouterRuntime/createRuntime.test.ts:171-239 | With static lists only, every earlier registration lacks the model and the chosen one lists it or is the last, whatever the cache. |
| RouterRuntime.Router.GetRuntimeByModel | packages/model-runtime/src/RouterRuntime/createRuntime.test.ts:171-239 | The scan's index, runtime, cache and resolver log; from an agreeing cache, the first runtime whose declared list contains the model, else the last. |
| RouterRuntime.RoutingScenario | packages/model-runtime/src/RouterRuntime/createRuntime.test.ts:171-239 | In the two-registration example each listed model goes to its backend and an unknown model to the last. |
| RouterRuntime.HandledErrorCases | packages/model-runtime/src/RouterRuntime/createRuntime.test.ts:270-340 | A handler that returns a value replaces the error; one that returns nothing leaves the original error. |
| RouterRuntime.Router.Chat | packages/model-runtime/src/RouterRuntime/createRuntime.test.ts:242-340 | `chat` forwards payload and options unchanged to the routed backend; a failure is rethrown through `handleError`. |
| RouterRuntime.HandleErrorScenario | packages/model-runtime/src/RouterRuntime/createRuntime.test.ts:270-340 | A value-returning handler makes chat reject with that value; without one, it rejects with the original error. |
| RouterRuntime.Router.TextToImage | packages/model-runtime/src/RouterRuntime/createRuntime.test.ts:343-457 | Forwards the payload alone to the backend chosen for its model. |
| RouterRuntime.Router.Embeddings | packages/model-runtime/src/RouterRuntime/createRuntime.test.ts:343-457 | Forwards payload and options unchanged to the backend chosen for the model. |
| RouterRuntime.Router.TextToSpeech | packages/model-runtime/src/RouterRuntime/createRuntime.test.ts:343-457 | Forwards payload and options unchanged to the backend chosen for the model. |
| RouterRuntime.Router.Models | packages/model-runtime/src/RouterRuntime/createRuntime.test.ts:343-457 | Always asks the first runtime; the cache is untouched. |
| RouterRuntime.ClearedCache | packages/model-runtime/src/RouterRuntime/createRuntime.test.ts:459-537 | Clearing an id removes exactly that key; clearing without an id empties the cache. |
| RouterRuntime.Router.ClearModelCache | packages/model-runtime/src/RouterRuntime/createRuntime.test.ts:459-537 | The cache loses that id (or every id), the runtimes and the log are unchanged. |
| RouterRuntime.ClearAllScenario | packages/model-runtime/src/RouterRuntime/createRuntime.test.ts:459-537 | After clearing everything, both cached resolvers run again. |
| MessageContent.UserWithoutVision | packages/context-engine/src/processors/__tests__/MessageContent.test.ts:32-58 | Without vision and without file context a user message's content is its plain text and its images are dropped. |
| MessageContent.UserWithVision | packages/context-engine/src/processors/__tests__/MessageContent.test.ts:60-93 | With vision, text and public images give the text part followed by image parts carrying the unchanged URLs. |
| MessageContent.ImagePartsPublic | packages/context-engine/src/processors/__tests__/MessageContent.test.ts:60-93 | Images whose URLs are not local become image parts with the same URLs, in order. |
| MessageContent.NonLocalImageKept | packages/context-engine/src/processors/__tests__/MessageContent.test.ts:60-93 | A data URI or remote URL is sent as it is, without a fetch. |
| MessageContent.LocalImageInlined | packages/context-engine/src/processors/__tests__/MessageContent.test.ts:124-152 | A local plain URL is sent as the data URL of its fetched bytes and MIME type. |
| MessageContent.StubInlinesLocalhost | packages/context-engine/src/processors/__tests__/MessageContent.test.ts:124-152 | With the test's stubs, a localhost image becomes `data:image/png;base64,base64-data`. |
| MessageContent.LocalImageScenario | packages/context-engine/src/processors/__tests__/MessageContent.test.ts:124-152 | The local-image test's message is sent with the inlined data URL. |
| MessageContent.AssistantWithImages | packages/context-engine/src/processors/__tests__/MessageContent.test.ts:156-219 | An assistant text with images gives the text part when the text is non-empty, then `auto`-detail image parts. |
| MessageContent.UserWithFileContext | packages/context-engine/src/processors/__tests__/MessageContent.test.ts:223-299 | With file context on and attachments, the content is one text part that opens with `SYSTEM CONTEXT` and holds the original text and the files prompt, even without vision; with it off, plain text. |
| MessageContent.FileContextTextParts | packages/context-engine/src/processors/__tests__/MessageContent.test.ts:223-262 | The file-context text opens with the marker and contains the original text and the files prompt. |
| MessageContent.UserTextKept | packages/context-engine/src/processors/__tests__/MessageContent.test.ts:223-299 | The user's own text always reaches the model, as plain content or contained in the first part. |
| MessageContent.AssistantWithReasoning | packages/context-engine/src/processors/__tests__/MessageContent.test.ts:303-341 | A reasoning gives the thinking part, with its text and signature, first, then the text part. |
| MessageContent.ProcessMessageKeepsFields | packages/context-engine/src/processors/__tests__/MessageContent.test.ts:32-341 | Processing keeps a message's id, role, attachments and reasoning. |
| MessageContent.Process | packages/context-engine/src/processors/__tests__/MessageContent.test.ts:344-392 | The message loop equals the specification: every message processed in order, the three counters set. |
| MessageContent.CountersCount | packages/context-engine/src/processors/__tests__/MessageContent.test.ts:344-392 | The user and assistant counters count those roles, and the processed counter is their sum; system and tool messages are not counted. |
| MessageContent.MetadataScenario | packages/context-engine/src/processors/__tests__/MessageContent.test.ts:344-392 | The metadata test's two messages give the counters 2, 1 and 1. |
| ContextEngineering.Pipeline | src/services/chat/contextEngineering.ts:51-111 | Exactly eleven processors, built from the call's arguments and flags. |
| ContextEngineering.TruncationFirst | src/services/chat/contextEngineering.ts:53-54 | History truncation is the first stage and does not occur later. |
| ContextEngineering.StageOrder | src/services/chat/contextEngineering.ts:56-110 | Injectors in order system role, inbox guide, tool role, history summary; then template, placeholders, content, tool calls, reorder; cleanup last. |
| ContextEngineering.EachKindOnce | src/services/chat/contextEngineering.ts:51-111 | No processor kind occurs twice. |
| ContextEngineering.ContentStageConfig | src/services/chat/contextEngineering.ts:96 | File context is enabled iff server mode; file URLs are included iff not desktop. |
| ContextEngineering.RunAppend | src/services/chat/contextEngineering.ts:115-120 | Running two stage lists in turn is running their concatenation, failures included. |
| ContextEngineering.InitialContextDefaults | src/services/chat/contextEngineering.ts:30-31 | Missing messages start the pipeline from [], with a ten-million-token budget. |
| ContextEngineering.ResultIsCleanupOutput | src/services/chat/contextEngineering.ts:113-122 | The result is the message list that cleanup leaves after the first ten stages. |
| GoogleStream.ErrorChunks | packages/model-runtime/src/core/streams/google-ai.ts:34-61 | The error marker and a block reason each give one error event, with the context id or `error`. |
| GoogleStream.BlockReasonOwnMessage | packages/model-runtime/src/core/streams/google-ai.ts:21-28 | A reason with its own non-empty message gets that message. |
| GoogleStream.BlockReasonFallback | packages/model-runtime/src/core/streams/google-ai.ts:21-28 | A reason without a message of its own is spelled out in the default template. |
| GoogleStream.UsageTotals | packages/model-runtime/src/core/streams/google-ai.ts:71-83 | The output total is the candidates total plus reasoning; text tokens are the TEXT count, else total minus image, floored at 0. |
| GoogleStream.TextAndImageMakeTotal | packages/model-runtime/src/core/streams/google-ai.ts:71-83 | Without a TEXT count and with image tokens at most the total, text plus image tokens equal the candidates total. |
| GoogleStream.ReportedTextCountWins | packages/model-runtime/src/core/streams/google-ai.ts:71-83 | A reported TEXT count is used as is. |
| GoogleStream.FunctionCallChunk | packages/model-runtime/src/core/streams/google-ai.ts:107-128 | Function calls give one `tool_calls` event numbered by position, then the stop/usage pair when finished with usage. |
| GoogleStream.ThoughtChunk | packages/model-runtime/src/core/streams/google-ai.ts:132-140 | A thought part gives only the reasoning event of the first thought. |
| GoogleStream.GroundingChunkEvents | packages/model-runtime/src/core/streams/google-ai.ts:143-163 | Grounding gives text, then citations `{favicon: title, title, url: uri}`, then stop/usage. |
| GoogleStream.ImageWithFinish | packages/model-runtime/src/core/streams/google-ai.ts:166-191 | Inline image data with a finish reason gives the data URL image event and exactly one stop, with or without usage. |
| GoogleStream.FinishWithoutImage | packages/model-runtime/src/core/streams/google-ai.ts:194-205 | A finished chunk without image gives the non-empty text, stop and usage; without usage, stop alone. |
| GoogleStream.PlainTextChunk | packages/model-runtime/src/core/streams/google-ai.ts:207-211 | Any other chunk gives one text event with its text, or `''`. |
| GoogleStream.AtMostOneStop | packages/model-runtime/src/core/streams/google-ai.ts:30-212 | No chunk yields two stop events, and a stop is last or followed only by usage. |
| GoogleStream.Transform | packages/model-runtime/src/core/streams/google-ai.ts:30-212 | The normaliser with its pushed `usageChunks` and first-thought loop equals the specification function. |
| ModelParse.IsKeywordListMatch | packages/model-runtime/src/utils/modelParse.ts:129-155 | The loop with early return matches exactly when no exclusion keyword and some inclusion keyword matches. |
| ModelParse.ExclusionWins | packages/model-runtime/src/utils/modelParse.ts:129-145 | A matching `!` keyword makes the match false whatever the inclusion keywords say. |
| ModelParse.NoIncludesNeverMatch | packages/model-runtime/src/utils/modelParse.ts:147-155 | A list without inclusion keywords never matches. |
| ModelParse.AnchoredKeyword | packages/model-runtime/src/utils/modelParse.ts:137-155 | `^kw` is a prefix test, and `!^kw` excludes exactly the ids with that prefix. |
| ModelParse.PlainKeyword | packages/model-runtime/src/utils/modelParse.ts:147-155 | A plain keyword is a substring test. |
| ModelParse.DetectModelProvider | packages/model-runtime/src/utils/modelParse.ts:195-207 | The detection loop with early return equals the table-order specification. |
| ModelParse.DetectFirstMatch | packages/model-runtime/src/utils/modelParse.ts:195-207 | The detected provider is the first in table order whose keywords match the lower-cased id. |
| ModelParse.DetectDefault | packages/model-runtime/src/utils/modelParse.ts:195-207 | An id matching no provider is an OpenAI model. |
| ModelParse.DetectIgnoresCase | packages/model-runtime/src/utils/modelParse.ts:195-207 | Detection gives the same provider for an id and its lower-cased form. |
| ModelParse.DetectClaude | packages/model-runtime/src/utils/modelParse.ts:85-98 | Any id containing `claude`, in any ASCII case, is an Anthropic model. |
| ModelParse.ReleasedAtStampIsDate | packages/model-runtime/src/utils/modelParse.ts:225-245 | A `YYYY-MM-DDThh:mm:ssZ` string is cut to its date. |
| ModelParse.ReleasedAtOtherCases | packages/model-runtime/src/utils/modelParse.ts:225-245 | Other strings are kept; a number above 1630000000 is formatted; otherwise the model's then the known model's date. |
| ModelParse.StripGroupsNoGroup | packages/model-runtime/src/utils/modelParse.ts:281-283 | No parenthesised group, ASCII or full-width, survives the removal. |
| ModelParse.StripGroupsPlain | packages/model-runtime/src/utils/modelParse.ts:281-283 | A name without opening parentheses is kept as it is. |
| ModelParse.DisplayNameExample | packages/model-runtime/src/utils/modelParse.ts:281-283 | A model whose display name is `GPT (Beta)` is shown as `GPT`, whatever the known model says. |
| ModelParse.ProcessModelCard | packages/model-runtime/src/utils/modelParse.ts:250-306 | No card exactly for an image model without parameters; a card keeps the id and type, and has parameters exactly when it is an image card. |
| ModelParse.TypeChoice | packages/model-runtime/src/utils/modelParse.ts:262-276 | Explicit type, then known type, then `image` on an image keyword, else `chat`. |
| ModelParse.ExplicitAbilitiesWin | packages/model-runtime/src/utils/modelParse.ts:284-306 | Explicit ability fields decide; `enabled` is true only when set true. |
| ModelParse.ExclusionSuppressesAbilities | packages/model-runtime/src/utils/modelParse.ts:285-306 | An excluded id gets neither function calling nor vision from keywords, while reasoning still follows its keywords. |
| ModelParse.KeywordAbilities | packages/model-runtime/src/utils/modelParse.ts:285-306 | Without explicit or known abilities and without exclusion, the keywords decide each ability. |
| ModelParse.ProcessModelList | packages/model-runtime/src/utils/modelParse.ts:317-349 | The result holds exactly the cards produced for some input model, none more than the input. |
| ModelParse.ListedImagesHaveParameters | packages/model-runtime/src/utils/modelParse.ts:342 | No image card without parameters reaches the list. |
| ModelParse.KnownModelChoice | packages/model-runtime/src/utils/modelParse.ts:329-341 | The known model is looked up by lower-cased id, in the provider catalogue first, then the default list. |
| ModelParse.ProcessMultiProviderModelList | packages/model-runtime/src/utils/modelParse.ts:351-404 | The result holds exactly the cards produced for some input model with its detected family's configuration. |
| ModelParse.LocalEnabledOverrides | packages/model-runtime/src/utils/modelParse.ts:392-399 | A boolean local `enabled` decides `enabled`, else the model's own flag; nothing else of the card changes. |
| ParseModels.ApplyCapabilityList | packages/utils/src/parseModels.ts:78-107 | The switch over capability names equals applying each capability in turn. |
| ParseModels.CapabilityCases | packages/utils/src/parseModels.ts:78-107 | Each known capability name sets its flag; an unknown name changes nothing. |
| ParseModels.CapabilityFlags | packages/utils/src/parseModels.ts:78-107 | One capability switches on its own flag and no other. |
| ParseModels.CapabilitiesSetFlags | packages/utils/src/parseModels.ts:72-107 | Each flag is on exactly when it was on or its capability is listed. |
| ParseModels.Items | packages/utils/src/parseModels.ts:19 | No entry is empty, and no entry contains `,` or `，`. |
| ParseModels.BlankSkipped | packages/utils/src/parseModels.ts:44-46 | A blank entry that is not a removal is ignored. |
| ParseModels.DisableOnlyRemoves | packages/utils/src/parseModels.ts:34-41 | A `-` entry only records a removal, and `-all` sets `removeAll`; it never adds. |
| ParseModels.RemoveAllIff | packages/utils/src/parseModels.ts:34-41 | `removeAll` is set exactly when some entry is `-all`. |
| ParseModels.RemovedFromEntries | packages/utils/src/parseModels.ts:34-41 | The removed ids are those of the `-` entries, in entry order. |
| ParseModels.AddedFromEntries | packages/utils/src/parseModels.ts:22-63 | Every added model came from an adding entry. |
| ParseModels.ParseEntryCases | packages/utils/src/parseModels.ts:22-32 | The entry id is the text before `=` and `->`, after the sign, whatever the entry does. |
| ParseModels.PlainEntry | packages/utils/src/parseModels.ts:23-25 | An entry without `<` has no abilities or token count; its name is the text after `=`, and an empty name is undefined. |
| ParseModels.DeploymentEntry | packages/utils/src/parseModels.ts:29-32 | With deployment names on, `id->dep` gives that id and deployment name. |
| ParseModels.BuildEntryModel | packages/utils/src/parseModels.ts:57-107 | In-place assembly of an added model equals the entry's specification model. |
| ParseModels.RemoveExisting | packages/utils/src/parseModels.ts:48-52 | The splice removes the first model of that id, if any. |
| ParseModels.ParseModelString | packages/utils/src/parseModels.ts:11-119 | The loop's `models`, `removed` and `removeAll` equal the entries applied in order. |
| ParseModels.UniqueAddIds | packages/utils/src/parseModels.ts:48-52 | The add list holds at most one model per id. |
| ParseModels.LatestEntryWins | packages/utils/src/parseModels.ts:48-52 | A repeated id keeps only the latest model, at the end of the list. |
| ParseModels.EntryRoundTrip | packages/utils/src/parseModels.ts:57-107 | Parsing a rendered entry `id=name<tokens:caps>` gives back its id, name, token count and abilities. |
| ParseModels.TransformToAiModelList | packages/utils/src/parseModels.ts:122-197 | The draft updated by index or appended to equals the specification of the transform. |
| ParseModels.TransformContract | packages/utils/src/parseModels.ts:122-196 | An empty string gives no list; otherwise every added model is listed and enabled, and a removed id stays out unless added again. |
| ParseModels.TransformKeepsBase | packages/utils/src/parseModels.ts:133-196 | The base is [] on `removeAll`, else the defaults without the removed ids; it opens the result, and each base model whose id no add carries keeps its place unchanged. |
| ParseModels.UntouchedStay | packages/utils/src/parseModels.ts:146-196 | The adds only grow the draft, and an entry whose id no add carries stays where it is, unchanged. |
| ParseModels.AddedAreEnabled | packages/utils/src/parseModels.ts:146-196 | Every added model ends up in the list, enabled. |
| ParseModels.EntriesFromBaseOrAdds | packages/utils/src/parseModels.ts:146-196 | Each listed model is an untouched base model or carries the id of an added model. |
| ParseModels.KnownListedUpdatedInPlace | packages/utils/src/parseModels.ts:166-175 | A known model already listed is merged where it stands; no count or position changes. |
| ParseModels.UnknownAppended | packages/utils/src/parseModels.ts:185-193 | An unknown model is appended, enabled, named after its id when it has no name. |
| ParseModels.DeploymentDefault | packages/utils/src/parseModels.ts:158-163 | With deployment names on, a model without one gets the known model's, else its id. |
| ParseModels.ExtractEnabledModels | packages/utils/src/parseModels.ts:199-210 | No result when the string adds no model; otherwise the added ids in order. |
| ParseModels.EnabledIdsDistinct | packages/utils/src/parseModels.ts:199-210 | The enabled ids are distinct. |
| ModelListByType.Matching | src/store/aiInfra/slices/aiProvider/__tests__/action.test.ts:69-74 | Exactly the models of that provider and type. |
| ModelListByType.MatchingAppend | src/store/aiInfra/slices/aiProvider/__tests__/action.test.ts:69-74 | Filtering distributes over concatenation, so the matching models keep their input order. |
| ModelListByType.ListGrowsByLast | src/store/aiInfra/slices/aiProvider/__tests__/action.test.ts:69-74 | One more model appends its entry exactly when it is of the provider and type and its id is new: the list holds the first-of-id models in input order. |
| ModelListByType.ResultSound | src/store/aiInfra/slices/aiProvider/__tests__/action.test.ts:69-85 | Every listed entry is the projection of a model of the provider and type. |
| ModelListByType.ResultComplete | src/store/aiInfra/slices/aiProvider/__tests__/action.test.ts:69-74 | Every model of the provider and type has its id listed. |
| ModelListByType.ResultDistinct | src/store/aiInfra/slices/aiProvider/__tests__/action.test.ts:162-187 | The listed ids are distinct. |
| ModelListByType.FirstDuplicateWins | src/store/aiInfra/slices/aiProvider/__tests__/action.test.ts:162-187 | The first matching model of an id is the one listed. |
| ModelListByType.ParametersByType | src/store/aiInfra/slices/aiProvider/__tests__/action.test.ts:76-112 | Chat entries have no parameters; image entries their own, else the fallback lookup's. |
| ModelListByType.MissingFieldDefaults | src/store/aiInfra/slices/aiProvider/__tests__/action.test.ts:131-158 | A missing display name becomes `''` and missing abilities `{}`. |
| ModelListByType.NoMatchEmpty | src/store/aiInfra/slices/aiProvider/__tests__/action.test.ts:116-128 | No model of the provider and type, as with empty input or an unknown provider or type, gives []. |
| ChatService.SearchGating | src/services/chat/index.ts:89-109 | Model search iff built-in search exists and was chosen; browsing tool iff search on and model search not used; never both. |
| ChatService.CreateAssistantMessage | src/services/chat/index.ts:89-215 | Plugins pushed as the specification says, history count plus 2, tools, extend params and `enabledSearch` as their specification functions. |
| ChatService.PluginIdsContract | src/services/chat/index.ts:100-109 | The enabled plugins come first, in order; the browsing id is appended iff application search is used. |
| ChatService.ComputeExtendParams | src/services/chat/index.ts:150-205 | The successive assignments give the extend-params specification. |
| ChatService.NoExtendParamsWithoutFlag | src/services/chat/index.ts:150-205 | A model without extend params gets none of the keys. |
| ChatService.ThinkingTable | src/services/chat/index.ts:156-174 | `enableReasoning` gives enabled with `budget \|\| 1024` or disabled with 0; only a budget param gives enabled; neither gives nothing. |
| ChatService.BudgetDefault | src/services/chat/index.ts:156-174 | Whenever the switches enable thinking, its budget is the configured one when set and non-zero, else 1024. |
| ChatService.Overrides | src/services/chat/index.ts:183-197 | `gpt5ReasoningEffort` overrides `reasoningEffort`; a `thinking` config overrides the reasoning switches. |
| ChatService.BudgetAndCaching | src/services/chat/index.ts:176-204 | `thinkingBudget` is copied whenever defined, 0 included; caching is off exactly when both the param and the flag hold. |
| ChatService.PrepareToolsContract | src/services/chat/index.ts:491-503 | Tools are returned iff the list is non-empty and the model can call functions. |
| ChatService.MapTraceContract | src/services/chat/index.ts:453-466 | A disallowed trace is only disabled; an allowed one is enabled with the user id and tags `[tag, ...trace.tags, ...agentTags]` without falsy entries. |
| ChatService.CompletionPayloadContract | src/services/chat/index.ts:256-279 | The provider defaults to OpenAI; only Azure, Volcengine, AzureAI and Qwen substitute a deployment name; streaming is on unless explicitly off; the response API mode follows its flag. |
| ChatService.FetcherAndSdk | src/services/chat/index.ts:288-340 | Desktop always uses its RPC fetch, otherwise fetch-on-client decides; a custom provider uses its configured SDK type, else OpenAI's. |
| ChatHelper.SourceSelection | src/services/chat/helper.ts:9-24 | Each lookup reads the deprecated store in the deprecated edition, else the current one; undefined is false for function calls and passed through for vision. |
| ChatHelper.FindAzureCard | src/services/chat/helper.ts:38 | `find` by id: the first card with the model's id, or none when no card has it. |
| ChatHelper.FindEnabledModel | src/services/chat/helper.ts:42-44 | `find` by id and provider: the first such enabled model, or none when there is none. |
| ChatHelper.CurrentEditionDeployment | src/services/chat/helper.ts:41-48 | In the current edition the id is replaced exactly when the first enabled model of that id and provider has a deployment name, and by it. |
| ChatHelper.NoMatchKeepsId | src/services/chat/helper.ts:29-51 | Without a matching enabled model with a deployment name, the model id is returned. |
| ChatHelper.DeprecatedIgnoresProvider | src/services/chat/helper.ts:33-39 | The deprecated lookup searches Azure cards by id only; the provider does not matter. |
| OpenAICompatibleImage.Dispatch | packages/model-runtime/src/core/openaiCompatibleFactory/createImage.ts:238-243 | A model ending in `:image` takes the chat path with the suffix removed; any other the images API. |
| OpenAICompatibleImage.ReplaceRemovesInnerOccurrence | packages/model-runtime/src/core/openaiCompatibleFactory/createImage.ts:158 | For `a:imageb:image` the replacement as written gives `ab:image`, not `a:imageb`. |
| OpenAICompatibleImage.SingleOccurrenceAgrees | packages/model-runtime/src/core/openaiCompatibleFactory/createImage.ts:158 | With a single `:image`, the replacement as written is suffix removal. |
| OpenAICompatibleImage.RenameKey | packages/model-runtime/src/core/openaiCompatibleFactory/createImage.ts:29-38 | `imageUrls` and `imageUrl` become `image`; other keys are kept. |
| OpenAICompatibleImage.UserInputKeys | packages/model-runtime/src/core/openaiCompatibleFactory/createImage.ts:29-38 | The user input's keys are the renamed keys of the entries. |
| OpenAICompatibleImage.LastEntryWins | packages/model-runtime/src/core/openaiCompatibleFactory/createImage.ts:29-38 | The value under a key is that of the last entry renamed to it. |
| OpenAICompatibleImage.PrepareImageRequest | packages/model-runtime/src/core/openaiCompatibleFactory/createImage.ts:29-78 | The in-place edits of the user input, the file conversion included, give the options specification (or its conversion error) and the edit flag. |
| OpenAICompatibleImage.ConvertAll | packages/model-runtime/src/core/openaiCompatibleFactory/createImage.ts:48-53 | One file per URL in order when every conversion succeeds; else the error of the first URL that fails. |
| OpenAICompatibleImage.StringImage | packages/model-runtime/src/core/openaiCompatibleFactory/createImage.ts:40-62 | A non-blank string image is converted and sent as that one file, or fails with the prefixed conversion error; a blank one is dropped. |
| OpenAICompatibleImage.ImageAndSize | packages/model-runtime/src/core/openaiCompatibleFactory/createImage.ts:40-66 | The request fails exactly for an edit with an unconvertible URL, with the first such error behind `Failed to convert image URLs to File objects: `; otherwise `image` is present exactly for an edit, `size: 'auto'` never reaches the API and no value is null. |
| OpenAICompatibleImage.EditSendsFiles | packages/model-runtime/src/core/openaiCompatibleFactory/createImage.ts:47-56 | An edit sends one image as its single file and several as the array of their files, in order. |
| OpenAICompatibleImage.UserOverrides | packages/model-runtime/src/core/openaiCompatibleFactory/createImage.ts:68-78 | When the request is built, a non-null user value other than `image` and `size: 'auto'` overrides the model and the defaults. |
| OpenAICompatibleImage.Defaults | packages/model-runtime/src/core/openaiCompatibleFactory/createImage.ts:68-78 | When the request is built and the user gives no value: `n` 1, `response_format: b64_json` iff DALL-E, `input_fidelity: high` iff edit. |
| OpenAICompatibleImage.ExtractImageUrlContract | packages/model-runtime/src/core/openaiCompatibleFactory/createImage.ts:89-117 | No data is an error; base64 data becomes a PNG data URL that parses back to it; else the URL; else an error. |
| OpenAICompatibleImage.ProcessImageUrlContract | packages/model-runtime/src/core/openaiCompatibleFactory/createImage.ts:132-147 | A base64 URI keeps its data under its MIME type or PNG; missing data is a TypeError; a URL is fetched; anything else is a TypeError. |
| OpenAICompatibleImage.BuildChatRequest | packages/model-runtime/src/core/openaiCompatibleFactory/createImage.ts:163-185 | Pushing onto the content gives the chat request specification. |
| OpenAICompatibleImage.ChatRequestContract | packages/model-runtime/src/core/openaiCompatibleFactory/createImage.ts:163-185 | The content is the prompt, plus one image part exactly when an image is given; no streaming. |
| OpenAICompatibleImage.ExtractChatImageContract | packages/model-runtime/src/core/openaiCompatibleFactory/createImage.ts:205-223 | The first image's URL, else an error. |
| SiliconCloudImage.MissingKeyBeforeRequest | packages/model-runtime/src/providers/siliconcloud/createImage.ts:41-47 | A missing key fails with InvalidProviderAPIKey whatever the network would answer. |
| SiliconCloudImage.BuildRequestBody | packages/model-runtime/src/providers/siliconcloud/createImage.ts:53-71 | The conditional assignments give the body specification. |
| SiliconCloudImage.RequestBodyContract | packages/model-runtime/src/providers/siliconcloud/createImage.ts:53-71 | `{model, n: 1, prompt}`, `size` only when non-empty, `seed` whenever defined, `image` only for the Qwen edit model with images. |
| SiliconCloudImage.FinalUrlContract | packages/model-runtime/src/providers/siliconcloud/createImage.ts:50-89 | Without a proxy the endpoint `baseURL + /images/generations`; with one, the proxy string with `{{url}}` replaced by it. |
| SiliconCloudImage.TrackingHeaders | packages/model-runtime/src/providers/siliconcloud/createImage.ts:78-84 | The user and IP headers carry the given values, else `unknown`. |
| SiliconCloudImage.ErrorMessageContract | packages/model-runtime/src/providers/siliconcloud/createImage.ts:94-103 | A failed response's message is the body's messages, else the status text, else `HTTP <status>`. |
| SiliconCloudImage.CreateImage | packages/model-runtime/src/providers/siliconcloud/createImage.ts:40-160 | The request with its reassigned error message equals the specification of the call. |
| SiliconCloudImage.EveryRequestErrorIsBiz | packages/model-runtime/src/providers/siliconcloud/createImage.ts:91-160 | Once a request is made, every failure is a SiliconCloud ProviderBizError; a 401 survives only inside it. |
| SiliconCloudImage.ImageSelection | packages/model-runtime/src/providers/siliconcloud/createImage.ts:138-151 | The first image of `data`, else of `images`; an empty `data` is kept and is the "No images" error. |
| Moonshot.MessagesContract | packages/model-runtime/src/moonshot/index.ts:16-21 | Empty assistant messages get `' '`; all other messages unchanged; order kept. |
| Moonshot.TemperatureHalved | packages/model-runtime/src/moonshot/index.ts:38 | A defined temperature is halved, an undefined one stays undefined. |
| Moonshot.ToolsContract | packages/model-runtime/src/moonshot/index.ts:23-40 | With search, the tools or [] followed by one `$web_search`; otherwise the tools; the rest passes through. |
| Perplexity.PenaltySelection | src/libs/model-runtime/perplexity/index.ts:23-30 | Presence penalty unless it is 0; then `frequency_penalty \|\| 1`; never both. |
| Perplexity.TemperatureAndStream | src/libs/model-runtime/perplexity/index.ts:19-37 | A temperature of 2 or more is dropped; streaming defaults to on; the rest passes through. |
| Ai302.HandleErrorContract | packages/model-runtime/src/ai302/index.ts:13-30 | A response or object with status 401 gives `{error: 401, InvalidProviderAPIKey}`; anything else `{error}`; always a payload. |
| Ai302.AsWrittenOnObjects | packages/model-runtime/src/ai302/index.ts:14-19 | On objects the handler as written agrees with the corrected one. |
| Ai302.AsWrittenThrowsOnPrimitive | packages/model-runtime/src/ai302/index.ts:17 | For a string or `null` error the handler as written throws a TypeError. |
| RuntimeCommon.ForceStreamContract | packages/model-runtime/src/providers/akashchat/index.ts:12-20 | The model is kept, `stream` is true, and every other field passes through. |
| RuntimeCommon.ListModelsContract | packages/model-runtime/src/providers/akashchat/index.ts:25-42 | A failed listing or processing gives []; missing `data` is processed as []. |
| AkashChat.StripCreatedContract | packages/model-runtime/src/providers/akashchat/index.ts:32 | An item loses `created` and keeps every other field. |
| AkashChat.ModelsSeeNoCreated | packages/model-runtime/src/providers/akashchat/index.ts:28-34 | No item handed to processing has `created`; none is dropped. |
| CometApi.ProjectContract | packages/model-runtime/src/providers/cometapi/index.ts:33-37 | An item keeps exactly `id`, `object`, `owned_by`, undefined when missing. |
| CometApi.ModelsSeeThreeKeys | packages/model-runtime/src/providers/cometapi/index.ts:30-39 | Every item handed to processing has exactly those three keys. |
| Share.HashtagsContract | src/hooks/useShare.tsx:29-33 | With a prefix every tag is kept, an empty one as the bare prefix; without a prefix empty tags are dropped. |
| Share.EmptyTagSurvives | src/hooks/useShare.tsx:31 | An empty tag under `#` survives as a bare `#`. |
| Share.TitleTextContract | src/hooks/useShare.tsx:50 | The title and description joined by ` - `, either omitted when empty. |
| Share.NoEmptyQueryValues | src/hooks/useShare.tsx:47-58 | No query carries an empty value (`pickBy identity`). |
| Share.NetworkQueries | src/hooks/useShare.tsx:46-164 | Reddit and Weibo use `title`, Telegram and Mastodon `text`, each with the URL; Weibo adds `sharesource`; LinkedIn only `url`. |
| Share.WhatsappText | src/hooks/useShare.tsx:104-117 | WhatsApp puts the URL inside its text, between title text and hashtags, with no URL field. |
| Share.XQuery | src/hooks/useShare.tsx:124-130 | X uses `,`-joined hashtags without prefix and the title text without hashtags. |
| Share.TelegramQuote | src/hooks/useShare.tsx:78-81 | Every Telegram link is built on `https://t.me/share/url"`, its trailing quote kept. |
| DataUrls.ParseSound | packages/model-runtime/src/core/openaiCompatibleFactory/createImage.ts:106 | Any accepted data URL is the one built from the parts it parses to. |
| DataUrls.ParseBuild | packages/model-runtime/src/core/openaiCompatibleFactory/createImage.ts:139-143 | A media type without `;` and its data are recovered from the built URL (RFC 2397). |

## Left out

- These library functions are parameters, or modelled only as far as the code relies on them:
  - `camelCase`;
  - `pickBy`, modelled as dropping empty values;
  - `qs.stringifyUrl`: URL encoding and serialisation are not modelled, only the query maps;
  - `JSON.stringify`;
  - `generateToolCallId`.
- lodash `merge` is modelled field by field: present fields of the source win, and ability
  flags combine.
- `cleanObject` is modelled as dropping `null` and `undefined` entries.
- `formatTimestampToDate` (JS `Date`) is an abstract parameter; only its use above
  1630000000 is modelled.
- ConvertAll: `Promise.all` rejects with the first conversion to fail in time; the model
  reports the first URL, in list order, whose conversion fails, as the conversions are not
  timed.
- BuildChatRequest: sends the corrected model id (`ActualModel`, the `:image` suffix
  removed), not the first-occurrence `replace` of the source; an id such as `a:imageb:image`
  is sent as `a:imageb` here and as `ab:image` by the source (see Findings).
- SdkType: takes the configured SDK type as an `Option`; the TypeError that
  `providerConfig?.settings.sdkType` raises when a provider config has no `settings` is
  not modelled.
- ExtractChatImageContract: `images` entries are records; the TypeError raised when
  `images[0]` is `null` is not modelled.
- RouteFirstMatch: assumes resolver registrations that share an id resolve to the same
  list, because they share one cache entry; with different lists, a later registration is
  scanned against the list cached for the earlier one, which `RouteFrom` still models.
- `toLowerCase` is ASCII-only; there is no Unicode case folding, and no Unicode whitespace
  beyond the characters listed in `Strings`.
- The router and message-content implementations are not part of this model. Their classes
  follow what the test files assert and nothing more. In particular:
  - the file-context text is modelled as the fixed `SYSTEM CONTEXT` marker, then the
    original text, then the files prompt (a parameter); this order is a modelling choice,
    and the lemmas rely only on the marker opening the text and on all three pieces being
    present, not on the prompt's wording;
  - a reasoning block always yields the thinking part; a missing signature is sent as
    undefined;
  - a failing image fetch fails the whole message list.
- The other ten pipeline processors are abstract `Context -> Context` functions:
  - history truncation and the injectors;
  - the template, placeholder, tool-call, reorder and cleanup stages.
- Network and SDK calls are parameters that hand their results to the model:
  - `fetch`;
  - the OpenAI client and `client.models.list`;
  - `convertImageUrlToFile`;
  - `imageUrlToBase64`;
  - the dynamic `import()` of provider catalogues.
- `processMultiProviderModelList` appears in the AkashChat and CometAPI runtimes as a
  processing parameter.
- The `models` hooks of Moonshot and 302.AI are not modelled: they only list models and
  hand them to `processModelList` / `processMultiProviderModelList`.
- ParseModels.KnownModel: models a relabelled copy of the catalogue entry. The source instead
  mutates `knownModel.providerId` on the shared catalogue object, and that aliasing is not
  modelled.
- Usage and pricing computation beyond the Gemini token split is not modelled.
- Streams are not modelled:
  - stream composition (`GoogleGenerativeAIStream`);
  - SSE framing;
  - token-speed timing.
- Concurrency is not modelled: the `Promise.all` fan-out of the model-list processors is
  sequential here.
- The string values of the `ModelProvider` enumeration (`azure`, `volcengine`, `azureai`,
  `qwen`, `openai`, …) are written out as constants, because their declaring file is not part
  of this model.
- Moonshot and Perplexity temperatures are `real`; no floating-point rounding is modelled.
- Debug switches and `console` logging are not modelled.

## Findings

| source | as written | input that shows it | evidently intended | confidence | as-written member | corrected member |
|---|---|---|---|---|---|---|
| packages/model-runtime/src/core/openaiCompatibleFactory/createImage.ts:158 | `model.replace(':image', '')` removes the first occurrence of `:image` | model `a:imageb:image` is sent to the chat API as `ab:image` | remove the `:image` suffix, giving `a:imageb` | not executed | OpenAICompatibleImage.ReplaceRemovesInnerOccurrence | OpenAICompatibleImage.Dispatch |
| packages/model-runtime/src/ai302/index.ts:17 | `'status' in error` is evaluated for any error value | an error thrown as the string `network down`, or `null`, makes the handler raise a TypeError instead of returning `{error}` | treat a non-object error as not a response and return `{error}` | not executed | Ai302.AsWrittenThrowsOnPrimitive | Ai302.HandleErrorContract |
