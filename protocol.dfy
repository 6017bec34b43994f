/** The pure parts of server/index.js: the escaping helper, the offline
    fallback variants, the tool catalogue, the JSON-RPC 2.0 envelopes and the
    routing of methods and tools to results or error codes. */
module Protocol {
  import opened Js
  import opened LlmAdapter
  import opened Db
  import opened Sql

  // ---------------------------------------------------------------------------
  // escapeJsString

  /** The escape of one character inside a template literal. */
  function EscapeChar(c: char): string {
    if c == '\\' then "\\\\"
    else if c == '`' then "\\`"
    else if c == '$' then "\\$"
    else if c == '\n' then "\\n"
    else [c]
  }

  /** The text escaped character by character. */
  function Escaped(s: string): string
    decreases |s|
  {
    if s == [] then "" else EscapeChar(s[0]) + Escaped(s[1..])
  }

  /** escapeJsString: '' for the empty string, its only falsy string input,
      and otherwise the chain of replaces. */
  function EscapeJsString(text: string): (r: string)
    ensures r == Escaped(text)
  {
    EscapeJsStringPerChar(text);
    if text == "" then "" else ReplaceChain(text)
  }

  /** The four global replaces of escapeJsString, backslash first. */
  function ReplaceChain(text: string): string {
    ReplaceAll(ReplaceAll(ReplaceAll(ReplaceAll(text, '\\', "\\\\"), '`', "\\`"), '$', "\\$"), '\n', "\\n")
  }

  lemma ReplaceChainAppend(a: string, b: string)
    ensures ReplaceChain(a + b) == ReplaceChain(a) + ReplaceChain(b)
  {
    var a1, b1 := ReplaceAll(a, '\\', "\\\\"), ReplaceAll(b, '\\', "\\\\");
    ReplaceAllAppend(a, b, '\\', "\\\\");
    var a2, b2 := ReplaceAll(a1, '`', "\\`"), ReplaceAll(b1, '`', "\\`");
    ReplaceAllAppend(a1, b1, '`', "\\`");
    var a3, b3 := ReplaceAll(a2, '$', "\\$"), ReplaceAll(b2, '$', "\\$");
    ReplaceAllAppend(a2, b2, '$', "\\$");
    ReplaceAllAppend(a3, b3, '\n', "\\n");
  }

  lemma ReplaceChainChar(c: char)
    ensures ReplaceChain([c]) == EscapeChar(c)
  {
    var s := [c];
    var s1 := ReplaceAll(s, '\\', "\\\\");
    assert s1 == if c == '\\' then "\\\\" else [c];
    var s2 := ReplaceAll(s1, '`', "\\`");
    assert s2 == if c == '`' then "\\`" else s1 by {
      if c == '\\' {
        assert s1 == ['\\'] + ['\\'];
        ReplaceAllAppend(['\\'], ['\\'], '`', "\\`");
      }
    }
    var s3 := ReplaceAll(s2, '$', "\\$");
    assert s3 == if c == '$' then "\\$" else s2 by {
      if c == '\\' {
        assert s2 == ['\\'] + ['\\'];
        ReplaceAllAppend(['\\'], ['\\'], '$', "\\$");
      } else if c == '`' {
        assert s2 == ['\\'] + ['`'];
        ReplaceAllAppend(['\\'], ['`'], '$', "\\$");
      }
    }
    assert ReplaceAll(s3, '\n', "\\n") == EscapeChar(c) by {
      if c == '\\' || c == '`' || c == '$' {
        assert s3 == ['\\'] + [s3[1]];
        ReplaceAllAppend(['\\'], [s3[1]], '\n', "\\n");
      }
    }
  }

  /** The chain of replaces escapes each character on its own: backslash goes
      first, so no later replace adds a backslash that gets doubled. */
  lemma {:induction false} EscapeJsStringPerChar(s: string)
    ensures ReplaceChain(s) == Escaped(s)
    decreases |s|
  {
    if s != [] {
      EscapeJsStringPerChar(s[1..]);
      assert s == [s[0]] + s[1..];
      ReplaceChainAppend([s[0]], s[1..]);
      ReplaceChainChar(s[0]);
    }
  }

  /** Reads an escaped text back: a backslash takes the next character
      literally, except that `\n` is a newline. */
  function Unescape(e: string): string
    decreases |e|
  {
    if e == [] then ""
    else if e[0] == '\\' && |e| >= 2 then (if e[1] == 'n' then "\n" else [e[1]]) + Unescape(e[2..])
    else [e[0]] + Unescape(e[1..])
  }

  lemma UnescapeStep(c: char, tail: string)
    ensures Unescape(EscapeChar(c) + tail) == [c] + Unescape(tail)
  {
    var e := EscapeChar(c) + tail;
    if c == '\\' || c == '`' || c == '$' || c == '\n' {
      assert e[0] == '\\' && e[2..] == tail;
    } else {
      assert e[0] == c && e[1..] == tail;
    }
  }

  /** Unescaping inverts escapeJsString. */
  lemma {:induction false} UnescapeEscapeJsString(s: string)
    ensures Unescape(EscapeJsString(s)) == s
    decreases |s|
  {
    if s != [] {
      UnescapeEscapeJsString(s[1..]);
      UnescapeStep(s[0], Escaped(s[1..]));
      assert s == [s[0]] + s[1..];
    }
  }

  /** The escaped text is longer by one character per special character. */
  lemma {:induction false} EscapeJsStringLength(s: string)
    ensures |EscapeJsString(s)| ==
      |s| + Count(s, '\\') + Count(s, '`') + Count(s, '$') + Count(s, '\n')
    decreases |s|
  {
    if s != [] {
      EscapeJsStringLength(s[1..]);
    }
  }

  /** No raw newline, and every backtick and dollar sign right after a
      backslash. */
  predicate BackslashGuarded(e: string) {
    && '\n' !in e
    && forall i :: 0 <= i < |e| && (e[i] == '`' || e[i] == '$') ==> i > 0 && e[i - 1] == '\\'
  }

  lemma EscapeCharGuarded(c: char)
    ensures BackslashGuarded(EscapeChar(c))
  {
  }

  lemma GuardedAppend(a: string, b: string)
    requires BackslashGuarded(a) && BackslashGuarded(b)
    ensures BackslashGuarded(a + b)
  {
    var e := a + b;
    forall i | 0 <= i < |e| && (e[i] == '`' || e[i] == '$') ensures i > 0 && e[i - 1] == '\\' {
      if i >= |a| {
        assert e[i] == b[i - |a|];
        if i > |a| {
          assert e[i - 1] == b[i - 1 - |a|];
        }
      }
    }
  }

  lemma {:induction false} EscapedGuarded(s: string)
    ensures BackslashGuarded(Escaped(s))
    decreases |s|
  {
    if s != [] {
      EscapedGuarded(s[1..]);
      EscapeCharGuarded(s[0]);
      GuardedAppend(EscapeChar(s[0]), Escaped(s[1..]));
    }
  }

  /** No raw newline survives, and every backtick and dollar sign in the output
      comes right after a backslash. */
  lemma EscapeJsStringShape(s: string)
    ensures var e := EscapeJsString(s);
      && '\n' !in e
      && (e != [] ==> e[0] != '`' && e[0] != '$')
      && forall i :: 0 <= i < |e| && (e[i] == '`' || e[i] == '$') ==> i > 0 && e[i - 1] == '\\'
  {
    EscapedGuarded(s);
  }

  // ---------------------------------------------------------------------------
  // generateFallbackVariant and generateVariantText

  const ConciseSuffix: string := "Be direct and specific in your response."
  const DetailedSuffix: string :=
    "Provide a comprehensive response with:\n- Detailed explanations\n- Relevant examples\n- Context and background\n- Specific implementation details"
  const CreativeSuffix: string :=
    "Approach this creatively by:\n- Thinking outside conventional boundaries\n- Using vivid examples and analogies\n- Exploring unexpected angles\n- Presenting ideas in engaging ways"
  const AnalyticalSuffix: string :=
    "Analyze this systematically:\n1. Break down the key components\n2. Examine relationships and dependencies\n3. Identify patterns or frameworks\n4. Structure your response logically with clear reasoning"

  /** The fixed text generateFallbackVariant appends for a known style. */
  function FallbackSuffix(style: string): Option<string> {
    if style == "concise" then Some(ConciseSuffix)
    else if style == "detailed" then Some(DetailedSuffix)
    else if style == "creative" then Some(CreativeSuffix)
    else if style == "analytical" then Some(AnalyticalSuffix)
    else None
  }

  /** generateFallbackVariant: the prompt, then a blank line and the style's
      suffix; an unknown style gives the prompt unchanged. */
  function FallbackVariant(prompt: string, style: string): (r: string)
    ensures |prompt| <= |r| && r[..|prompt|] == prompt
    ensures FallbackSuffix(style).None? ==> r == prompt
    ensures FallbackSuffix(style).Some? ==>
      r[|prompt|..] == "\n\n" + FallbackSuffix(style).value
  {
    match FallbackSuffix(style)
    case None => prompt
    case Some(suffix) => prompt + "\n\n" + suffix
  }

  /** The switch of generateFallbackVariant covers exactly the catalogue. */
  lemma FallbackCoversCatalogue(style: string)
    ensures FallbackSuffix(style).Some? <==> style in GetAllStyles()
  {
  }

  /** What the messages API call produced: a failure (a network error, a
      response that is not ok, a body that cannot be read), or the `text` of
      each content item, with '' for items that are not text. */
  datatype ModelReply = Failed | Replied(texts: seq<string>)

  predicate NonBlank(t: string) { t != "" }

  /** The text of a successful call: the non-empty texts joined by newlines
      and trimmed, or the original prompt when that leaves nothing. It is
      never empty for a non-empty prompt, and starts and ends without white
      space when the prompt does. */
  function RepliedText(prompt: string, texts: seq<string>): (r: string)
    ensures Trim(Join(Where(texts, NonBlank), '\n')) == "" ==> r == prompt
    ensures Trim(Join(Where(texts, NonBlank), '\n')) != "" ==> r == Trim(Join(Where(texts, NonBlank), '\n'))
    ensures prompt != "" ==> r != ""
    ensures prompt != "" && !IsSpace(prompt[0]) && !IsSpace(prompt[|prompt| - 1]) ==>
      !IsSpace(r[0]) && !IsSpace(r[|r| - 1])
  {
    var refined := Trim(Join(Where(texts, NonBlank), '\n'));
    if refined == "" then prompt else refined
  }

  /** generateVariantText: the reply's text when the call succeeded, the
      fallback variant when it failed. */
  function VariantText(prompt: string, style: string, reply: ModelReply): (r: string)
    ensures reply.Failed? ==> r == FallbackVariant(prompt, style)
    ensures reply.Replied? ==> r == RepliedText(prompt, reply.texts)
    ensures prompt != "" ==> r != ""
    ensures reply.Failed? ==> |prompt| <= |r| && r[..|prompt|] == prompt
    ensures reply.Replied? && prompt != "" && !IsSpace(prompt[0]) && !IsSpace(prompt[|prompt| - 1]) ==>
      !IsSpace(r[0]) && !IsSpace(r[|r| - 1])
  {
    match reply
    case Failed => FallbackVariant(prompt, style)
    case Replied(texts) => RepliedText(prompt, texts)
  }

  // ---------------------------------------------------------------------------
  // Tool results and JSON-RPC envelopes

  /** `{ id, style, refined_text }`, one entry of refinePrompt's variants. */
  datatype SavedVariant = SavedVariant(id: int, style: string, refinedText: string)

  /** What a tool returns, before JSON.stringify. The JSX `artifact` text is
      not modelled. */
  datatype ToolResult =
    | PromptRejected
    | Refined(promptId: int, originalPrompt: string, variants: seq<SavedVariant>)
    | NoHistory
    | History(history: seq<HistoryRow>)

  const RejectedMessage: string := "Prompt is required and must not be empty"
  const RefinedInstructions: string :=
    "Create a React artifact to display all 4 refined prompt variants. Users can copy their preferred version directly."
  const HistoryInstructions: string :=
    "Create a React artifact showing refinement history with expandable cards."

  /** The object a tool returns, as JSON.stringify sees it, without `artifact`. */
  function ResultObject(r: ToolResult): (o: Value)
    ensures o.Obj? && "success" in o.props
    ensures o.props["success"] == Bool(!r.PromptRejected?)
    ensures r.Refined? ==> "variantCount" in o.props && o.props["variantCount"] == Num(|r.variants|)
    ensures r.NoHistory? ==> "count" in o.props && o.props["count"] == Num(0) && "instructions" !in o.props
    ensures r.History? ==> "count" in o.props && o.props["count"] == Num(|r.history|)
  {
    match r
    case PromptRejected =>
      Obj(map["success" := Bool(false), "error" := Str(RejectedMessage)])
    case Refined(promptId, originalPrompt, variants) =>
      Obj(map["success" := Bool(true), "promptId" := Num(promptId),
               "originalPrompt" := Str(originalPrompt), "variantCount" := Num(|variants|),
               "outputType" := Str("react"), "instructions" := Str(RefinedInstructions)])
    case NoHistory =>
      Obj(map["success" := Bool(true), "outputType" := Str("react"), "count" := Num(0)])
    case History(history) =>
      Obj(map["success" := Bool(true), "outputType" := Str("react"), "count" := Num(|history|),
               "instructions" := Str(HistoryInstructions)])
  }

  /** One entry of tools/list. */
  datatype ToolDescriptor = ToolDescriptor(name: string, description: string, inputSchema: Value)

  const RefinePromptDescriptor: ToolDescriptor := ToolDescriptor("refinePrompt",
    "Takes a prompt, generates 4 refined variants (concise, detailed, creative, analytical), saves them all to the database, and returns them for display. Claude should immediately display these variants in a React artifact.",
    Obj(map["type" := Str("object"),
            "properties" := Obj(map["prompt" := Obj(map["type" := Str("string"),
                                                        "description" := Str("The original prompt to refine")])]),
            "required" := Arr([Str("prompt")])]))

  const GetHistoryDescriptor: ToolDescriptor := ToolDescriptor("getHistory",
    "Retrieves history of refined prompts. Returns a React artifact showing the history.",
    Obj(map["type" := Str("object"),
            "properties" := Obj(map["limit" := Obj(map["type" := Str("integer"),
                                                       "description" := Str("Maximum number of records to return (default 20)")])])]))

  /** The two tools, in the order of the `tools` object. */
  const Tools: seq<ToolDescriptor> := [RefinePromptDescriptor, GetHistoryDescriptor]

  /** `{ type: 'text', text: JSON.stringify(value, null, 2) }`. */
  datatype ContentItem = TextItem(value: Value)

  /** The `result` member of a successful response. */
  datatype RpcResult =
    | Initialized(protocolVersion: string, capabilities: Value, serverName: string, serverVersion: string)
    | ToolList(tools: seq<ToolDescriptor>)
    | ToolContent(content: seq<ContentItem>)

  /** A JSON-RPC 2.0 response object: `{ jsonrpc: '2.0', id, result }` or
      `{ jsonrpc: '2.0', id, error: { code, message } }`. */
  datatype Envelope =
    | Success(id: Value, result: RpcResult)
    | Failure(id: Value, code: int, message: string)

  /** The error codes of section 5.1 of the JSON-RPC 2.0 specification. */
  const ParseError: int := -32700
  const MethodNotFound: int := -32601
  const InvalidParams: int := -32602
  const InternalError: int := -32603

  /** errorResponse. */
  function ErrorResponse(id: Value, code: int, message: string): (e: Envelope)
    ensures e.Failure? && e.id == id && e.code == code && e.message == message
  {
    Failure(id, code, message)
  }

  /** The capabilities handleInitialize announces: tools, with no options. */
  const ToolsCapability: Value := Obj(map["tools" := Obj(map[])])

  /** handleInitialize: protocol 2024-11-05, server prompt-refiner 2.0.0. */
  function InitializeResponse(id: Value): (e: Envelope)
    ensures e.Success? && e.id == id && e.result.Initialized?
    ensures e.result.protocolVersion == "2024-11-05" && e.result.capabilities == ToolsCapability
    ensures e.result.serverName == "prompt-refiner" && e.result.serverVersion == "2.0.0"
  {
    Success(id, Initialized("2024-11-05", ToolsCapability, "prompt-refiner", "2.0.0"))
  }

  /** handleListTools. */
  function ListToolsResponse(id: Value): (e: Envelope)
    ensures e.Success? && e.id == id && e.result == ToolList(Tools)
  {
    Success(id, ToolList(Tools))
  }

  /** The envelope of a tool that returned: one text item holding its result. */
  function ToolResponse(id: Value, result: ToolResult): (e: Envelope)
    ensures e.Success? && e.id == id
    ensures e.result.ToolContent? && |e.result.content| == 1
    ensures e.result.content[0].value == ResultObject(result)
  {
    Success(id, ToolContent([TextItem(ResultObject(result))]))
  }

  /** The envelope the line loop writes when parsing or handling a line throws. */
  function ParseErrorResponse(): (e: Envelope)
    ensures e == Failure(Null, ParseError, "Parse error")
  {
    ErrorResponse(Null, ParseError, "Parse error")
  }

  // ---------------------------------------------------------------------------
  // Routing

  datatype Route = InitializeRoute | ListToolsRoute | CallToolRoute | UnknownMethod

  /** The `switch (method)` of handleRequest (strict equality on strings). */
  function RouteOf(rpcMethod: Value): (r: Route)
    ensures r == InitializeRoute <==> rpcMethod == Str("initialize")
    ensures r == ListToolsRoute <==> rpcMethod == Str("tools/list")
    ensures r == CallToolRoute <==> rpcMethod == Str("tools/call")
  {
    if rpcMethod == Str("initialize") then InitializeRoute
    else if rpcMethod == Str("tools/list") then ListToolsRoute
    else if rpcMethod == Str("tools/call") then CallToolRoute
    else UnknownMethod
  }

  datatype Tool = RefinePromptTool | GetHistoryTool

  /** The `switch (name)` of handleToolCall. */
  function ToolOf(name: Value): (r: Option<Tool>)
    ensures r == Some(RefinePromptTool) <==> name == Str("refinePrompt")
    ensures r == Some(GetHistoryTool) <==> name == Str("getHistory")
  {
    if name == Str("refinePrompt") then Some(RefinePromptTool)
    else if name == Str("getHistory") then Some(GetHistoryTool)
    else None
  }

  /** handleToolCall for a name that is not a tool: -32602 naming it, unless
      converting the name to text throws, which rejects the tool call. */
  function UnknownToolResponse(id: Value, name: Value): (r: Outcome<Envelope>)
    ensures r.Threw? <==> Unprintable(name)
    ensures r.Threw? ==> r.message == NoPrimitiveMessage
    ensures r.Returned? ==> r.value.Failure? && r.value.id == id && r.value.code == InvalidParams
    ensures name.Str? ==> r == Returned(Failure(id, InvalidParams, "Unknown tool: " + name.s))
  {
    match Display(name)
    case Threw(message) => Threw(message)
    case Returned(text) => Returned(ErrorResponse(id, InvalidParams, "Unknown tool: " + text))
  }

  /** handleRequest as written: `return this.handleToolCall(params, id)` hands
      back the tool call's promise without awaiting it, so a tool call that
      throws is not caught by the surrounding try and the request rejects. */
  function RequestOutcomeAsWritten(rpcMethod: Value, id: Value, toolCall: Outcome<Envelope>): (r: Outcome<Envelope>)
    ensures r.Threw? <==> RouteOf(rpcMethod) == CallToolRoute && toolCall.Threw?
    ensures RouteOf(rpcMethod) == CallToolRoute ==> r == toolCall
    ensures RouteOf(rpcMethod) != CallToolRoute ==> r.Returned? && r.value.id == id
  {
    match RouteOf(rpcMethod)
    case InitializeRoute => Returned(InitializeResponse(id))
    case ListToolsRoute => Returned(ListToolsResponse(id))
    case CallToolRoute => toolCall
    case UnknownMethod =>
      match Display(rpcMethod)
      case Returned(text) => Returned(ErrorResponse(id, MethodNotFound, "Method not found: " + text))
      case Threw(message) => Returned(ErrorResponse(id, InternalError, message))
  }

  /** handleRequest as intended: a tool call that throws is answered with
      code -32603 and the error's message. `toolCall` is what handleToolCall
      produced; it is only consulted for `tools/call`. */
  function RequestOutcome(rpcMethod: Value, id: Value, toolCall: Outcome<Envelope>): (e: Envelope)
    ensures e.id == id || (RouteOf(rpcMethod) == CallToolRoute && toolCall.Returned? && e == toolCall.value)
    ensures RouteOf(rpcMethod) == InitializeRoute ==> e == InitializeResponse(id)
    ensures RouteOf(rpcMethod) == ListToolsRoute ==> e == ListToolsResponse(id)
    ensures RouteOf(rpcMethod) == CallToolRoute && toolCall.Threw? ==>
      e == Failure(id, InternalError, toolCall.message)
    ensures RouteOf(rpcMethod) == CallToolRoute && toolCall.Returned? ==> e == toolCall.value
    ensures RouteOf(rpcMethod) == UnknownMethod && !Unprintable(rpcMethod) ==>
      e.Failure? && e.code == MethodNotFound && e.message == "Method not found: " + Display(rpcMethod).value
    ensures RouteOf(rpcMethod) == UnknownMethod && Unprintable(rpcMethod) ==>
      e == Failure(id, InternalError, NoPrimitiveMessage)
  {
    match RequestOutcomeAsWritten(rpcMethod, id, toolCall)
    case Returned(e) => e
    case Threw(message) => ErrorResponse(id, InternalError, message)
  }

  /** The intended handleRequest agrees with the written one except where a
      tool call throws. */
  lemma RequestOutcomeAgrees(rpcMethod: Value, id: Value, toolCall: Outcome<Envelope>)
    ensures !(RouteOf(rpcMethod) == CallToolRoute && toolCall.Threw?) ==>
      RequestOutcomeAsWritten(rpcMethod, id, toolCall) == Returned(RequestOutcome(rpcMethod, id, toolCall))
    ensures RouteOf(rpcMethod) == CallToolRoute && toolCall.Threw? ==>
      RequestOutcomeAsWritten(rpcMethod, id, toolCall).Threw?
  {
  }

  /** The `line` handler of main: blank lines are ignored; a line that does
      not parse, or whose handling rejects, is answered with a parse error. */
  function LineResponse(raw: string, parsed: Option<Value>, handled: Outcome<Envelope>): (r: Option<Envelope>)
    ensures r.None? <==> Trim(raw) == ""
    ensures r.Some? && parsed.None? ==> r.value == ParseErrorResponse()
    ensures r.Some? && parsed.Some? ==>
      r.value == if handled.Returned? then handled.value else ParseErrorResponse()
  {
    if Trim(raw) == "" then None
    else if parsed.None? then Some(ParseErrorResponse())
    else match handled
      case Returned(e) => Some(e)
      case Threw(_) => Some(ParseErrorResponse())
  }

  /** A `tools/call` request without params, such as
      `{"id":7,"method":"tools/call"}`, makes handleToolCall throw while
      destructuring them. As written the line is answered with a parse error
      whose id is null; as intended it gets -32603 with the request's id. */
  lemma UnawaitedToolCallLosesId(raw: string, request: Value)
    requires Trim(raw) != ""
    requires Get(request, "method") == Str("tools/call") && Nullish(Get(request, "params"))
    ensures var toolCall := Destructure(Get(request, "params"), "name");
      && toolCall.Threw?
      && LineResponse(raw, Some(request),
           RequestOutcomeAsWritten(Get(request, "method"), Get(request, "id"), Threw(toolCall.message)))
         == Some(Failure(Null, ParseError, "Parse error"))
      && LineResponse(raw, Some(request),
           Returned(RequestOutcome(Get(request, "method"), Get(request, "id"), Threw(toolCall.message))))
         == Some(Failure(Get(request, "id"), InternalError, toolCall.message))
  {
    assert RouteOf(Str("tools/call")) == CallToolRoute;
  }

  // ---------------------------------------------------------------------------
  // Tool arguments

  /** The check at the top of refinePrompt: the trimmed prompt, or nothing
      when the prompt is missing, not a string, or only white space. */
  function ValidPrompt(prompt: Value): (r: Option<string>)
    ensures r.Some? <==> prompt.Str? && exists i :: 0 <= i < |prompt.s| && !IsSpace(prompt.s[i])
    ensures r.Some? ==> r.value == Trim(prompt.s)
    ensures r.Some? ==> r.value != "" && !IsSpace(r.value[0]) && !IsSpace(r.value[|r.value| - 1])
  {
    if !Truthy(prompt) || !prompt.Str? || |Trim(prompt.s)| == 0 then None
    else Some(Trim(prompt.s))
  }

  /** `args?.limit || 20` handed to db.getHistory, which binds it to LIMIT:
      integers bind as themselves and `true` as 1; any other value is a
      datatype mismatch that the query throws. */
  function HistoryLimitArg(args: Value): (r: Outcome<int>)
    ensures !Truthy(OptionalGet(args, "limit")) ==> r == Returned(20)
    ensures OptionalGet(args, "limit").Num? && OptionalGet(args, "limit").n != 0 ==>
      r == Returned(OptionalGet(args, "limit").n)
    ensures r.Returned? ==> r.value != 0
  {
    var limit := OptionalGet(args, "limit");
    if !Truthy(limit) then Returned(20)
    else match limit
      case Num(n) => Returned(n)
      case Bool(_) => Returned(1)
      case _ => Threw("SQLITE_MISMATCH: datatype mismatch")
  }
}
