/** The Moonshot runtime's payload hook. */
module Moonshot {
  import opened Wrappers
  import opened RuntimeCommon

  datatype Content = TextContent(text: string) | PartsContent(parts: seq<Json>)

  /** A chat message: its role, its content (`None` when missing) and its other fields. */
  datatype Message = Message(role: string, content: Option<Content>, fields: Fields)

  /** A tool entry: `{function: {name}, type}`. */
  datatype Tool = Tool(name: string, kind: string)

  const WebSearchTool: Tool := Tool("$web_search", "builtin_function")

  datatype Payload = Payload(enabledSearch: Option<bool>, messages: seq<Message>, temperature: Option<real>,
                             tools: Option<seq<Tool>>, rest: Fields)

  /** The request sent: the payload without `enabledSearch`. */
  datatype Request = Request(messages: seq<Message>, temperature: Option<real>, tools: Option<seq<Tool>>, rest: Fields)

  /** `!content || content === ''`: missing content or the empty string (a list, even empty, is kept). */
  predicate EmptyContent(c: Option<Content>) {
    c.None? || c == Some(TextContent(""))
  }

  function FixMessage(m: Message): Message {
    if m.role == "assistant" && EmptyContent(m.content) then m.(content := Some(TextContent(" "))) else m
  }

  function HandlePayload(p: Payload): Request {
    Request(
      seq(|p.messages|, i requires 0 <= i < |p.messages| => FixMessage(p.messages[i])),
      if p.temperature.Some? then Some(p.temperature.value / 2.0) else None,
      if p.enabledSearch == Some(true) then Some(p.tools.GetOr([]) + [WebSearchTool]) else p.tools,
      p.rest)
  }

  /**
   * Assistant messages with missing or empty content get a single space; every other message,
   * and every other field of an assistant message, is unchanged; the order is kept.
   */
  lemma MessagesContract(p: Payload)
    ensures var ms := HandlePayload(p).messages;
      |ms| == |p.messages|
      && (forall i :: 0 <= i < |ms| ==> ms[i].role == p.messages[i].role && ms[i].fields == p.messages[i].fields)
      && (forall i :: 0 <= i < |ms| && p.messages[i].role == "assistant" && EmptyContent(p.messages[i].content) ==>
            ms[i].content == Some(TextContent(" ")))
      && (forall i :: 0 <= i < |ms| && !(p.messages[i].role == "assistant" && EmptyContent(p.messages[i].content)) ==>
            ms[i] == p.messages[i])
      && (forall i :: 0 <= i < |ms| && ms[i].role == "assistant" ==> !EmptyContent(ms[i].content))
  {
  }

  /** A defined temperature is halved, so twice the sent value is the given one; an undefined one stays undefined. */
  lemma TemperatureHalved(p: Payload)
    ensures p.temperature.None? <==> HandlePayload(p).temperature.None?
    ensures p.temperature.Some? ==> 2.0 * HandlePayload(p).temperature.value == p.temperature.value
    ensures p.temperature.Some? && p.temperature.value >= 0.0 ==> HandlePayload(p).temperature.value <= p.temperature.value
  {
  }

  /**
   * With search enabled the tools are the given ones (or none) followed by one built-in
   * `$web_search`; otherwise the tools are passed as they are; the other fields pass through.
   */
  lemma ToolsContract(p: Payload)
    ensures var t := HandlePayload(p).tools;
      (p.enabledSearch == Some(true) ==>
         t.Some? && |t.value| == |p.tools.GetOr([])| + 1
         && t.value[..|p.tools.GetOr([])|] == p.tools.GetOr([]) && t.value[|t.value| - 1] == WebSearchTool)
      && (p.enabledSearch != Some(true) ==> t == p.tools)
    ensures HandlePayload(p).rest == p.rest
  {
  }
}
