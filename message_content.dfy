/**
 * The message-content stage of the context pipeline: it turns each user or assistant
 * message into the content the model API receives — a plain string, or a list of parts
 * (text, `image_url`, `thinking`) — and records how many messages it processed in the
 * pipeline metadata.
 *
 * The stage's implementation file is not part of this model; the rules below are the
 * ones its test suite fixes. Image fetching, URL classification and the file-context
 * prompt text are foreign code, passed in through `Env`.
 */
module MessageContent {
  import opened Wrappers
  import opened Strings
  import opened DataUrls

  datatype Role = User | Assistant | System | Tool

  datatype ImageItem = ImageItem(id: string, url: string, alt: string)

  datatype FileItem = FileItem(id: string, name: string, fileType: string, size: nat, url: string)

  datatype Reasoning = Reasoning(content: string, signature: Option<string>)

  /** One element of a structured content list. */
  datatype Part =
    | Text(text: string)
      /** `{ type: 'image_url', image_url: { detail, url } }` */
    | ImageUrl(url: string, detail: string)
    | Thinking(thinking: string, signature: Option<string>)

  datatype Content = PlainText(text: string) | Parts(parts: seq<Part>)

  datatype ChatMessage = ChatMessage(
    id: string,
    role: Role,
    content: Content,
    imageList: seq<ImageItem>,
    fileList: seq<FileItem>,
    reasoning: Option<Reasoning>)

  /** The pipeline metadata: the request's model settings and the stages' counters. */
  datatype Metadata = Metadata(model: string, provider: Option<string>, maxTokens: nat, counters: map<string, nat>)

  /** The agent state the pipeline starts from. */
  datatype AgentState = AgentState(
    messages: seq<ChatMessage>,
    model: Option<string>,
    provider: Option<string>,
    systemRole: Option<string>,
    tools: Option<seq<string>>)

  datatype PipelineContext = PipelineContext(
    initialState: AgentState,
    messages: seq<ChatMessage>,
    metadata: Metadata,
    isAborted: bool)

  /** A fetched image: its base64 text and its MIME type. */
  datatype Encoded = Encoded(base64: string, mimeType: string)

  /** The processor's configuration. */
  datatype Config = Config(
    model: string,
    provider: string,
    isCanUseVision: (string, string) -> bool,
    fileContextEnabled: bool,
    includeFileUrl: bool)

  /** The foreign helpers the processor calls. */
  datatype Env = Env(
    isLocalUrl: string -> bool,
    /** `parseDataUri(url).type`: "data" for a data URI, "url" for a plain URL. */
    dataUriType: string -> string,
    imageUrlToBase64: string -> Result<Encoded, string>,
    /** The file-context prompt for the attached files and images, with or without their URLs. */
    filesPrompt: (seq<FileItem>, seq<ImageItem>, bool) -> string)

  /** The text of a message's content as stored (`message.content`). */
  function TextOf(c: Content): string {
    match c
    case PlainText(t) => t
    case Parts(_) => ""
  }

  predicate CanUseVision(config: Config) {
    config.isCanUseVision(config.model, config.provider)
  }

  /** The URL sent for one image: a local plain URL is fetched and inlined as a data URL. */
  function ImageUrlFor(env: Env, url: string): Result<string, string> {
    if env.dataUriType(url) == "url" && env.isLocalUrl(url) then
      match env.imageUrlToBase64(url)
      case Ok(e) => Ok(Base64DataUrl(e.mimeType, e.base64))
      case Err(err) => Err(err)
    else Ok(url)
  }

  /** The `image_url` parts of an image list, in order; the first failing fetch fails the list. */
  function ImageParts(env: Env, images: seq<ImageItem>): (r: Result<seq<Part>, string>)
    ensures r.Ok? ==> |r.value| == |images|
    ensures r.Ok? ==> forall i :: 0 <= i < |images| ==>
      ImageUrlFor(env, images[i].url).Ok? && r.value[i] == ImageUrl(ImageUrlFor(env, images[i].url).value, "auto")
  {
    if |images| == 0 then Ok([])
    else
      match ImageUrlFor(env, images[0].url)
      case Err(e) => Err(e)
      case Ok(u) =>
        match ImageParts(env, images[1..])
        case Err(e) => Err(e)
        case Ok(rest) => Ok([ImageUrl(u, "auto")] + rest)
  }

  /** File context applies when it is enabled and the message carries files or images. */
  predicate HasFileContext(config: Config, m: ChatMessage) {
    config.fileContextEnabled && (|m.fileList| > 0 || |m.imageList| > 0)
  }

  function TextParts(text: string): seq<Part> {
    if text == "" then [] else [Text(text)]
  }

  /** The fixed marker that opens the file-context text. */
  const SystemContextMarker: string := "SYSTEM CONTEXT"

  /** The file-context text: the marker, then the original text, then the files prompt. */
  function FileContextText(original: string, filesPrompt: string): string {
    SystemContextMarker + "\n\n" + original + "\n\n" + filesPrompt
  }

  /** The content of a user message. */
  function UserContent(config: Config, env: Env, m: ChatMessage): Result<Content, string> {
    var original := TextOf(m.content);
    var fileContext := HasFileContext(config, m);
    var text := if fileContext then FileContextText(original, env.filesPrompt(m.fileList, m.imageList, config.includeFileUrl))
                else original;
    var withImages := CanUseVision(config) && |m.imageList| > 0;
    if !fileContext && !withImages then Ok(PlainText(original))
    else if !withImages then Ok(Parts(TextParts(text)))
    else
      match ImageParts(env, m.imageList)
      case Err(e) => Err(e)
      case Ok(images) => Ok(Parts(TextParts(text) + images))
  }

  predicate HasThinking(m: ChatMessage) {
    m.reasoning.Some?
  }

  /** The content of an assistant message. */
  function AssistantContent(config: Config, env: Env, m: ChatMessage): Result<Content, string> {
    var original := TextOf(m.content);
    var thinking := if HasThinking(m)
      then [Thinking(m.reasoning.value.content, m.reasoning.value.signature)] else [];
    var withImages := CanUseVision(config) && |m.imageList| > 0;
    if !HasThinking(m) && !withImages then Ok(PlainText(original))
    else if !withImages then Ok(Parts(thinking + TextParts(original)))
    else
      match ImageParts(env, m.imageList)
      case Err(e) => Err(e)
      case Ok(images) => Ok(Parts(thinking + TextParts(original) + images))
  }

  /** One message after the stage; messages of other roles are left as they are. */
  function ProcessMessage(config: Config, env: Env, m: ChatMessage): Result<ChatMessage, string> {
    match m.role
    case User =>
      (match UserContent(config, env, m) case Ok(c) => Ok(m.(content := c)) case Err(e) => Err(e))
    case Assistant =>
      (match AssistantContent(config, env, m) case Ok(c) => Ok(m.(content := c)) case Err(e) => Err(e))
    case _ => Ok(m)
  }

  /** Every message in order; the first failing message fails the stage. */
  function ProcessMessages(config: Config, env: Env, ms: seq<ChatMessage>): (r: Result<seq<ChatMessage>, string>)
    ensures r.Ok? ==> |r.value| == |ms|
  {
    if |ms| == 0 then Ok([])
    else
      match ProcessMessages(config, env, ms[..|ms| - 1])
      case Err(e) => Err(e)
      case Ok(prefix) =>
        match ProcessMessage(config, env, ms[|ms| - 1])
        case Err(e) => Err(e)
        case Ok(last) => Ok(prefix + [last])
  }

  function CountRole(ms: seq<ChatMessage>, role: Role): (n: nat)
    ensures n <= |ms|
  {
    if |ms| == 0 then 0
    else CountRole(ms[..|ms| - 1], role) + (if ms[|ms| - 1].role == role then 1 else 0)
  }

  /** The metadata with the stage's three counters set. */
  function WithCounters(md: Metadata, users: nat, assistants: nat): Metadata {
    md.(counters := md.counters["messageContentProcessed" := users + assistants]
                               ["userMessagesProcessed" := users]
                               ["assistantMessagesProcessed" := assistants])
  }

  function ProcessSpec(config: Config, env: Env, ctx: PipelineContext): Result<PipelineContext, string> {
    match ProcessMessages(config, env, ctx.messages)
    case Err(e) => Err(e)
    case Ok(ms) =>
      Ok(ctx.(messages := ms,
              metadata := WithCounters(ctx.metadata, CountRole(ctx.messages, User), CountRole(ctx.messages, Assistant))))
  }

  /** `MessageContentProcessor.process`: one pass over the messages, counting users and assistants. */
  method Process(config: Config, env: Env, ctx: PipelineContext) returns (r: Result<PipelineContext, string>)
    ensures r == ProcessSpec(config, env, ctx)
  {
    var out: seq<ChatMessage> := [];
    var users, assistants := 0, 0;
    var i := 0;
    while i < |ctx.messages|
      invariant 0 <= i <= |ctx.messages|
      invariant ProcessMessages(config, env, ctx.messages[..i]) == Ok(out)
      invariant users == CountRole(ctx.messages[..i], User)
      invariant assistants == CountRole(ctx.messages[..i], Assistant)
    {
      var m := ctx.messages[i];
      assert ctx.messages[..i + 1][..i] == ctx.messages[..i];
      var processed := ProcessMessage(config, env, m);
      if processed.Err? {
        assert ProcessMessages(config, env, ctx.messages[..i + 1]) == Err(processed.error);
        PrefixErrorPropagates(config, env, ctx.messages, i + 1);
        return Err(processed.error);
      }
      out := out + [processed.value];
      if m.role == User {
        users := users + 1;
      } else if m.role == Assistant {
        assistants := assistants + 1;
      }
      i := i + 1;
    }
    assert ctx.messages[..i] == ctx.messages;
    r := Ok(ctx.(messages := out, metadata := WithCounters(ctx.metadata, users, assistants)));
  }

  /** A failure on a prefix is the failure of the whole list. */
  lemma {:induction false} PrefixErrorPropagates(config: Config, env: Env, ms: seq<ChatMessage>, n: nat)
    requires n <= |ms|
    requires ProcessMessages(config, env, ms[..n]).Err?
    ensures ProcessMessages(config, env, ms) == ProcessMessages(config, env, ms[..n])
    decreases |ms| - n
  {
    if n < |ms| {
      assert ms[..n + 1][..n] == ms[..n];
      PrefixErrorPropagates(config, env, ms, n + 1);
    } else {
      assert ms[..n] == ms;
    }
  }

  /** A processed message keeps its id, role, attachments and reasoning. */
  lemma ProcessMessageKeepsFields(config: Config, env: Env, m: ChatMessage)
    requires ProcessMessage(config, env, m).Ok?
    ensures var p := ProcessMessage(config, env, m).value;
      p.id == m.id && p.role == m.role && p.imageList == m.imageList
      && p.fileList == m.fileList && p.reasoning == m.reasoning
    ensures m.role != User && m.role != Assistant ==> ProcessMessage(config, env, m) == Ok(m)
  {
  }

  /** Without vision and without file context a user message is its plain text; its images are dropped. */
  lemma UserWithoutVision(config: Config, env: Env, m: ChatMessage)
    requires m.role == User
    requires !CanUseVision(config) && !HasFileContext(config, m)
    ensures ProcessMessage(config, env, m) == Ok(m.(content := PlainText(TextOf(m.content))))
  {
  }

  /** With vision, a user text and public images give the text part followed by the unchanged image URLs. */
  lemma UserWithVision(config: Config, env: Env, m: ChatMessage)
    requires m.role == User && CanUseVision(config) && !config.fileContextEnabled
    requires TextOf(m.content) != "" && |m.imageList| > 0
    requires forall i :: 0 <= i < |m.imageList| ==>
      env.dataUriType(m.imageList[i].url) == "url" && !env.isLocalUrl(m.imageList[i].url)
    ensures ProcessMessage(config, env, m).Ok?
    ensures var c := ProcessMessage(config, env, m).value.content;
      c.Parts? && |c.parts| == 1 + |m.imageList| && c.parts[0] == Text(TextOf(m.content))
      && forall i :: 0 <= i < |m.imageList| ==> c.parts[1 + i] == ImageUrl(m.imageList[i].url, "auto")
  {
    ImagePartsPublic(env, m.imageList);
  }

  lemma {:induction false} ImagePartsPublic(env: Env, images: seq<ImageItem>)
    requires forall i :: 0 <= i < |images| ==> env.dataUriType(images[i].url) == "url" && !env.isLocalUrl(images[i].url)
    ensures ImageParts(env, images).Ok?
  {
    if |images| > 0 {
      ImagePartsPublic(env, images[1..]);
    }
  }

  /** A local plain image URL is sent as the data URL of its fetched bytes. */
  lemma LocalImageInlined(env: Env, image: ImageItem, e: Encoded)
    requires env.dataUriType(image.url) == "url" && env.isLocalUrl(image.url)
    requires env.imageUrlToBase64(image.url) == Ok(e)
    ensures ImageParts(env, [image]) == Ok([ImageUrl("data:" + e.mimeType + ";base64," + e.base64, "auto")])
  {
    assert [image][1..] == [];
    assert ImageUrlFor(env, image.url) == Ok(Base64DataUrl(e.mimeType, e.base64));
    assert ImageParts(env, []) == Ok([]);
    var part := ImageUrl(Base64DataUrl(e.mimeType, e.base64), "auto");
    assert [part] + [] == [part];
  }

  /** A data URI or a remote URL is sent as it is, without a fetch. */
  lemma NonLocalImageKept(env: Env, url: string)
    requires env.dataUriType(url) != "url" || !env.isLocalUrl(url)
    ensures ImageUrlFor(env, url) == Ok(url)
  {
  }

  /** An assistant text with images gives the text part, when non-empty, followed by the image parts. */
  lemma AssistantWithImages(config: Config, env: Env, m: ChatMessage)
    requires m.role == Assistant && !HasThinking(m) && CanUseVision(config) && |m.imageList| > 0
    requires ImageParts(env, m.imageList).Ok?
    ensures ProcessMessage(config, env, m).Ok?
    ensures var c := ProcessMessage(config, env, m).value.content;
      var images := ImageParts(env, m.imageList).value;
      c == Parts(if TextOf(m.content) == "" then images else [Text(TextOf(m.content))] + images)
  {
    var original := TextOf(m.content);
    var images := ImageParts(env, m.imageList).value;
    var parts: seq<Part> := [];
    assert AssistantContent(config, env, m) == Ok(Parts(parts + TextParts(original) + images));
    if original == "" {
      assert parts + TextParts(original) + images == images;
    } else {
      assert parts + TextParts(original) + images == [Text(original)] + images;
    }
  }

  /** A message with a reasoning starts with the thinking part, then its text. */
  lemma AssistantWithReasoning(config: Config, env: Env, m: ChatMessage)
    requires m.role == Assistant && HasThinking(m) && !(CanUseVision(config) && |m.imageList| > 0)
    requires TextOf(m.content) != ""
    ensures ProcessMessage(config, env, m) == Ok(m.(content := Parts([
      Thinking(m.reasoning.value.content, m.reasoning.value.signature),
      Text(TextOf(m.content))])))
  {
    var thinking := Thinking(m.reasoning.value.content, m.reasoning.value.signature);
    assert TextParts(TextOf(m.content)) == [Text(TextOf(m.content))];
    assert [thinking] + [Text(TextOf(m.content))] == [thinking, Text(TextOf(m.content))];
  }

  /** The file-context text opens with the marker and contains the original text and the files prompt. */
  lemma FileContextTextParts(original: string, filesPrompt: string)
    ensures var t := FileContextText(original, filesPrompt);
      StartsWith(t, SystemContextMarker) && Contains(t, SystemContextMarker)
      && Contains(t, original) && Contains(t, filesPrompt)
  {
    var t := FileContextText(original, filesPrompt);
    var n := |SystemContextMarker|;
    assert t[..n] == SystemContextMarker;
    assert OccursAt(t, SystemContextMarker, 0);
    ContainsAt(t, SystemContextMarker, 0);
    assert t[n + 2..n + 2 + |original|] == original;
    ContainsAt(t, original, n + 2);
    var k := n + 2 + |original| + 2;
    assert t[k..k + |filesPrompt|] == filesPrompt;
    ContainsAt(t, filesPrompt, k);
  }

  /**
   * With file context and attachments, a user message without vision is one text part that
   * opens with the context marker and holds the original text and the files prompt; with
   * file context disabled it is the plain text.
   */
  lemma UserWithFileContext(config: Config, env: Env, m: ChatMessage)
    requires m.role == User && !CanUseVision(config)
    requires |m.fileList| > 0 || |m.imageList| > 0
    ensures config.fileContextEnabled ==>
      var c := ProcessMessage(config, env, m).value.content;
      c.Parts? && |c.parts| == 1 && c.parts[0].Text?
      && StartsWith(c.parts[0].text, SystemContextMarker) && Contains(c.parts[0].text, TextOf(m.content))
      && Contains(c.parts[0].text, env.filesPrompt(m.fileList, m.imageList, config.includeFileUrl))
    ensures !config.fileContextEnabled ==> ProcessMessage(config, env, m).value.content == PlainText(TextOf(m.content))
  {
    FileContextTextParts(TextOf(m.content), env.filesPrompt(m.fileList, m.imageList, config.includeFileUrl));
  }

  /** The user's own text always reaches the model: as the plain content or inside the first part. */
  lemma UserTextKept(config: Config, env: Env, m: ChatMessage)
    requires m.role == User && TextOf(m.content) != ""
    requires ProcessMessage(config, env, m).Ok?
    ensures var c := ProcessMessage(config, env, m).value.content;
      c == PlainText(TextOf(m.content))
      || (c.Parts? && |c.parts| > 0 && c.parts[0].Text? && Contains(c.parts[0].text, TextOf(m.content)))
  {
    FileContextTextParts(TextOf(m.content), env.filesPrompt(m.fileList, m.imageList, config.includeFileUrl));
    var text := TextOf(m.content);
    assert OccursAt(text, text, 0);
    ContainsAt(text, text, 0);
  }

  /** The counters count the user and the assistant messages. */
  lemma CountersCount(config: Config, env: Env, ctx: PipelineContext)
    requires ProcessSpec(config, env, ctx).Ok?
    ensures var c := ProcessSpec(config, env, ctx).value.metadata.counters;
      c["userMessagesProcessed"] == CountRole(ctx.messages, User)
      && c["assistantMessagesProcessed"] == CountRole(ctx.messages, Assistant)
      && c["messageContentProcessed"] == CountRole(ctx.messages, User) + CountRole(ctx.messages, Assistant)
  {
  }

  /** The `isLocalUrl` stub of the test suite. */
  predicate StubIsLocalUrl(url: string) {
    Contains(url, "localhost") || Contains(url, "127.0.0.1")
  }

  /** The `parseDataUri` stub of the test suite. */
  function StubDataUriType(url: string): string {
    if StartsWith(url, "data:") then "data" else "url"
  }

  /** The `imageUrlToBase64` stub of the test suite. */
  function StubImageUrlToBase64(url: string): Result<Encoded, string> {
    Ok(Encoded("base64-data", "image/png"))
  }

  function StubFilesPrompt(files: seq<FileItem>, images: seq<ImageItem>, addUrl: bool): string {
    "<!-- SYSTEM CONTEXT (NOT PART OF USER QUERY) -->"
  }

  function TestEnv(): Env {
    Env(StubIsLocalUrl, StubDataUriType, StubImageUrlToBase64, StubFilesPrompt)
  }

  /** The metadata scenario: a user message with attachments and an assistant message with reasoning. */
  method MetadataScenario() returns (processed: nat, users: nat, assistants: nat)
    ensures processed == 2 && users == 1 && assistants == 1
  {
    var config := Config("gpt-4", "openai", (model: string, provider: string) => false, true, true);
    var user := ChatMessage("test1", User, PlainText("Hello"),
      [ImageItem("img1", "http://example.com/image.jpg", "test.png")],
      [FileItem("file1", "test.txt", "text/plain", 100, "http://example.com/test.txt")], None);
    var assistant := ChatMessage("test2", Assistant, PlainText("Response"), [], [],
      Some(Reasoning("Thinking...", Some("thinking"))));
    var ctx := PipelineContext(AgentState([], None, None, None, None), [user, assistant],
      Metadata("gpt-4", Some("openai"), 100000, map[]), false);
    var env := TestEnv();
    assert ProcessMessage(config, env, user).Ok?;
    assert ProcessMessage(config, env, assistant).Ok?;
    assert [user, assistant][..1] == [user];
    assert [user][..0] == [];
    assert ProcessMessages(config, env, [user]).Ok?;
    assert ProcessMessages(config, env, ctx.messages).Ok?;
    assert CountRole([user], User) == 1 && CountRole([user], Assistant) == 0;
    var r := Process(config, env, ctx);
    CountersCount(config, env, ctx);
    var c := r.value.metadata.counters;
    processed, users, assistants := c["messageContentProcessed"], c["userMessagesProcessed"], c["assistantMessagesProcessed"];
  }

  lemma StubClassifiesLocalhost()
    ensures StubIsLocalUrl("http://localhost:3000/image.jpg")
    ensures StubDataUriType("http://localhost:3000/image.jpg") == "url"
  {
    assert "http://localhost:3000/image.jpg" == "http://" + "localhost" + ":3000/image.jpg";
    ContainsInfix("http://", "localhost", ":3000/image.jpg");
    var url := "http://localhost:3000/image.jpg";
    assert url[0] == 'h';
  }

  lemma StubInlinesLocalhost(image: ImageItem)
    requires image.url == "http://localhost:3000/image.jpg"
    ensures ImageParts(TestEnv(), [image]) == Ok([ImageUrl("data:image/png;base64,base64-data", "auto")])
  {
    assert "data:" + "image/png" + ";base64," + "base64-data" == "data:image/png;base64,base64-data" by {
      assert "data:" + "image/png" == "data:image/png";
      assert "data:image/png" + ";base64," == "data:image/png;base64,";
    }
    var env := TestEnv();
    var e := Encoded("base64-data", "image/png");
    StubClassifiesLocalhost();
    assert env.isLocalUrl(image.url) && env.dataUriType(image.url) == "url";
    assert env.imageUrlToBase64(image.url) == Ok(e);
    LocalImageInlined(env, image, e);
  }

  /** The local-image scenario: `http://localhost:3000/image.jpg` is sent as `data:image/png;base64,base64-data`. */
  method LocalImageScenario() returns (url: string)
    ensures url == "data:image/png;base64,base64-data"
  {
    var config := Config("gpt-4-vision", "openai", (model: string, provider: string) => true, false, true);
    var image := ImageItem("test", "http://localhost:3000/image.jpg", "");
    var m := ChatMessage("test", User, PlainText("Hello"), [image], [], None);
    var env := TestEnv();
    StubInlinesLocalhost(image);
    var part := ImageUrl("data:image/png;base64,base64-data", "auto");
    assert TextParts("Hello") == [Text("Hello")];
    assert UserContent(config, env, m) == Ok(Parts([Text("Hello")] + [part]));
    var r := ProcessMessage(config, env, m);
    url := r.value.content.parts[1].url;
  }
}
