/** The PromptRefinerMCP class of server/index.js and the per-line handling of
    main: requests are routed, tool calls read and write the store, and every
    line gets at most one response envelope. generateVariantText is the
    parameter `generate`, which GenerateVariantText instantiates with the
    messages API as an oracle `reply`, indexed by the number of the call
    within one refinePrompt; `now` is the clock reading the inserts of a
    request are stamped with. */
module Server {
  import opened Js
  import opened Sql
  import opened LlmAdapter
  import opened Db
  import opened Protocol

  /** generateVariantText as the refinePrompt loop calls it: the text for a
      prompt and a style, given the number of the call within the run. The
      server is stated for any such function; GenerateVariantText is the one
      the source runs. */
  type Generator = (string, string, nat) -> string

  /** generateVariantText with the messages API as the oracle `reply`. */
  function GenerateVariantText(reply: nat -> ModelReply): Generator {
    (prompt: string, style: string, k: nat) => VariantText(prompt, style, reply(k))
  }

  /** The variant rows one refinePrompt run inserts: one per style of the
      catalogue, in catalogue order, with consecutive ids from `first`, the
      k-th one holding the text of the k-th generation. */
  function RefinedRows(first: int, promptId: int, now: int, prompt: string, generate: Generator): seq<VariantRow> {
    var styles := GetAllStyles();
    seq(|styles|, k requires 0 <= k < |styles| => VariantRow(first + k, promptId, styles[k], generate(prompt, styles[k], k), now))
  }

  /** The k-th row of a run. */
  lemma RefinedRowAt(first: int, promptId: int, now: int, prompt: string, generate: Generator, k: nat)
    requires k < |GetAllStyles()|
    ensures var rows := RefinedRows(first, promptId, now, prompt, generate);
      |rows| == |GetAllStyles()| &&
      rows[k] == VariantRow(first + k, promptId, GetAllStyles()[k], generate(prompt, GetAllStyles()[k], k), now)
  {
  }

  /** The run covers each style once, in catalogue order, every row under the
      same prompt and each with the text generateVariantText gave for it. */
  lemma RefinedRowsShape(first: int, promptId: int, now: int, prompt: string, reply: nat -> ModelReply)
    ensures var rows := RefinedRows(first, promptId, now, prompt, GenerateVariantText(reply));
      && |rows| == 4
      && (forall k :: 0 <= k < |rows| ==> rows[k].style == GetAllStyles()[k])
      && (forall k :: 0 <= k < |rows| ==>
            && rows[k].id == first + k && rows[k].promptId == promptId && rows[k].createdAt == now
            && rows[k].refinedText == VariantText(prompt, rows[k].style, reply(k)))
  {
  }

  /** `{ id, style, refined_text }` of each inserted row. */
  function SavedOf(rows: seq<VariantRow>): (saved: seq<SavedVariant>)
    ensures |saved| == |rows|
    ensures forall k :: 0 <= k < |rows| ==>
      saved[k] == SavedVariant(rows[k].id, rows[k].style, rows[k].refinedText)
  {
    seq(|rows|, k requires 0 <= k < |rows| => SavedVariant(rows[k].id, rows[k].style, rows[k].refinedText))
  }

  /** The tables after `rows` have been inserted one by one. */
  function WithVariants(t: Tables, rows: seq<VariantRow>): Tables {
    t.(variants := t.variants + rows, variantSeq := t.variantSeq + |rows|)
  }

  /** Inserting the next row of a run extends the run by that row. */
  lemma WithNextVariant(t: Tables, rows: seq<VariantRow>, k: nat)
    requires k < |rows| && rows[k].id == t.variantSeq + k + 1
    ensures var row := rows[k];
      AddVariant(WithVariants(t, rows[..k]), row.promptId, row.style, row.refinedText, row.createdAt)
        == WithVariants(t, rows[..k + 1])
  {
    assert rows[..k + 1] == rows[..k] + [rows[k]];
  }

  /** The saved list of a run grows by the saved form of its next row. */
  lemma SavedNext(rows: seq<VariantRow>, k: nat)
    requires k < |rows|
    ensures SavedOf(rows[..k]) + [SavedVariant(rows[k].id, rows[k].style, rows[k].refinedText)] == SavedOf(rows[..k + 1])
  {
    assert rows[..k + 1] == rows[..k] + [rows[k]];
  }

  /** Listing a new prompt's variants after refinePrompt gives exactly the
      variants it saved, one per style, ordered by style. */
  lemma RefinedVariantsListed(t: Tables, first: int, promptId: int, now: int, prompt: string, generate: Generator)
    requires forall i :: 0 <= i < |t.variants| ==> t.variants[i].promptId != promptId
    ensures var rows := RefinedRows(first, promptId, now, prompt, generate);
      var listed := VariantsOf(WithVariants(t, rows).variants, promptId);
      && multiset(listed) == multiset(rows)
      && SortedBy(listed, StyleLe)
  {
    var rows := RefinedRows(first, promptId, now, prompt, generate);
    var p := (v: VariantRow) => v.promptId == promptId;
    WhereAppend(t.variants, rows, p);
    WhereAllOrNone(t.variants, p);
    WhereAllOrNone(rows, p);
    assert t.variants + rows == WithVariants(t, rows).variants;
    assert Where(t.variants + rows, p) == rows;
  }

  /** The tables after refinePrompt saved `clean` and its variants on `t`. */
  function AfterRefinement(t: Tables, clean: string, now: int, generate: Generator): Tables {
    WithVariants(AddPrompt(t, clean, now), RefinedRows(t.variantSeq + 1, t.promptSeq + 1, now, clean, generate))
  }

  /** The `variants` list refinePrompt returns after saving on `t`. */
  function RefinedSaved(t: Tables, clean: string, now: int, generate: Generator): seq<SavedVariant> {
    SavedOf(RefinedRows(t.variantSeq + 1, t.promptSeq + 1, now, clean, generate))
  }

  /** A fresh prompt id has no variants yet when every stored variant refers
      to an earlier prompt. */
  lemma FreshPromptHasNoVariants(t: Tables, text: string, now: int)
    requires TablesValid(t)
    requires forall i :: 0 <= i < |t.variants| ==> t.variants[i].promptId <= t.promptSeq
    ensures var t' := AddPrompt(t, text, now);
      forall i :: 0 <= i < |t'.variants| ==> t'.variants[i].promptId != t'.promptSeq
  {
  }

  // ---------------------------------------------------------------------------
  // What a tool call and a request produce, on the tables the store opens on

  /** What refinePrompt returns on the tables `t`. */
  function RefineResult(t: Tables, args: Value, now: int, generate: Generator): Outcome<ToolResult> {
    match Destructure(args, "prompt")
    case Threw(message) => Threw(message)
    case Returned(prompt) =>
      match ValidPrompt(prompt)
      case None => Returned(PromptRejected)
      case Some(clean) =>
        Returned(Refined(t.promptSeq + 1, clean, RefinedSaved(t, clean, now, generate)))
  }

  /** The tables refinePrompt leaves: only a valid prompt writes. */
  function RefineTables(t: Tables, args: Value, now: int, generate: Generator): Tables {
    match Destructure(args, "prompt")
    case Threw(_) => t
    case Returned(prompt) =>
      match ValidPrompt(prompt)
      case None => t
      case Some(clean) => AfterRefinement(t, clean, now, generate)
  }

  /** refinePrompt throws exactly for nullish arguments, rejects exactly an
      invalid prompt and writes nothing then; a valid prompt is stored
      trimmed under the next prompt id, followed by one variant per style. */
  lemma RefineOutcomes(t: Tables, args: Value, now: int, generate: Generator)
    ensures var r := RefineResult(t, args, now, generate);
      && (r.Threw? <==> Nullish(args))
      && (!Nullish(args) ==> (r == Returned(PromptRejected) <==> ValidPrompt(Get(args, "prompt")).None?))
      && (r.Threw? || r == Returned(PromptRejected) ==> RefineTables(t, args, now, generate) == t)
      && (r.Returned? && r.value.Refined? ==>
            && r.value.promptId == t.promptSeq + 1
            && r.value.originalPrompt == ValidPrompt(Get(args, "prompt")).value
            && |r.value.variants| == |GetAllStyles()|
            && RefineTables(t, args, now, generate).prompts == t.prompts + [PromptRow(t.promptSeq + 1, r.value.originalPrompt, now)])
  {
  }

  /** What the getHistory tool returns on the tables `t`. */
  function HistoryResult(t: Tables, args: Value): Outcome<ToolResult> {
    match HistoryLimitArg(args)
    case Threw(message) => Threw(message)
    case Returned(limit) =>
      var selected := HistoryPrompts(t.prompts, limit);
      if |selected| == 0 then Returned(NoHistory)
      else Returned(History(seq(|selected|, i requires 0 <= i < |selected| => Annotated(selected[i], t.variants))))
  }

  /** What handleToolCall settles with on the tables `t`. */
  function ToolCallResult(t: Tables, params: Value, id: Value, now: int, generate: Generator): Outcome<Envelope> {
    match Destructure(params, "name")
    case Threw(message) => Threw(message)
    case Returned(name) =>
      match ToolOf(name)
      case None => UnknownToolResponse(id, name)
      case Some(tool) =>
        var args := Get(params, "arguments");
        var result := if tool == RefinePromptTool then RefineResult(t, args, now, generate) else HistoryResult(t, args);
        match result
        case Threw(message) => Threw(message)
        case Returned(value) => Returned(ToolResponse(id, value))
  }

  /** The tables handleToolCall leaves on the tables `t`. */
  function ToolCallTables(t: Tables, params: Value, now: int, generate: Generator): Tables {
    match Destructure(params, "name")
    case Threw(_) => t
    case Returned(name) =>
      if ToolOf(name) == Some(RefinePromptTool) then RefineTables(t, Get(params, "arguments"), now, generate) else t
  }

  /** What handleRequest settles with on the tables `t`, as written: a tool
      call's promise is handed back unawaited. */
  function RequestResult(t: Tables, request: Value, now: int, generate: Generator): Outcome<Envelope> {
    match Destructure(request, "method")
    case Threw(message) => Threw(message)
    case Returned(rpcMethod) =>
      var id := Get(request, "id");
      var toolCall :=
        if RouteOf(rpcMethod) == CallToolRoute then ToolCallResult(t, Get(request, "params"), id, now, generate)
        else Threw("");
      RequestOutcomeAsWritten(rpcMethod, id, toolCall)
  }

  /** The tables handleRequest leaves on the tables `t`. */
  function RequestTables(t: Tables, request: Value, now: int, generate: Generator): Tables {
    if !Nullish(request) && RouteOf(Get(request, "method")) == CallToolRoute
    then ToolCallTables(t, Get(request, "params"), now, generate)
    else t
  }

  /** Every envelope a tool call settles with carries the request's id. */
  lemma ToolCallAnswersUnderId(t: Tables, params: Value, id: Value, now: int, generate: Generator)
    ensures var r := ToolCallResult(t, params, id, now, generate);
      r.Returned? ==> r.value.id == id
  {
  }

  /** A request settles with an envelope under its own id, or rejects: when
      it is nullish, or when it is a tool call that rejects. */
  lemma RequestSettles(t: Tables, request: Value, now: int, generate: Generator)
    ensures var r := RequestResult(t, request, now, generate);
      && (r.Returned? ==> r.value.id == Get(request, "id"))
      && (r.Threw? <==>
            || Nullish(request)
            || (Get(request, "method") == Str("tools/call")
                && ToolCallResult(t, Get(request, "params"), Get(request, "id"), now, generate).Threw?))
  {
    if !Nullish(request) && Get(request, "method") == Str("tools/call") {
      ToolCallAnswersUnderId(t, Get(request, "params"), Get(request, "id"), now, generate);
    }
  }

  /** As written, a tools/call request without params is answered with the
      parse error under id null, not with -32603 under its own id: the tool
      call's rejection escapes handleRequest's try. */
  lemma ToolCallWithoutParamsLosesId(t: Tables, raw: string, request: Value, now: int, generate: Generator)
    requires Trim(raw) != ""
    requires Get(request, "method") == Str("tools/call") && Nullish(Get(request, "params"))
    ensures RequestResult(t, request, now, generate).Threw?
    ensures LineResponse(raw, Some(request), RequestResult(t, request, now, generate)) == Some(ParseErrorResponse())
  {
    assert !Nullish(request);
    assert Destructure(request, "method") == Returned(Str("tools/call"));
    assert ToolCallResult(t, Get(request, "params"), Get(request, "id"), now, generate).Threw?;
  }

  /** Only a refinePrompt call with a valid prompt writes: every other
      request leaves the tables as they were. */
  lemma OnlyRefinementWrites(t: Tables, request: Value, now: int, generate: Generator)
    requires RequestTables(t, request, now, generate) != t
    ensures !Nullish(request) && Get(request, "method") == Str("tools/call")
    ensures var params := Get(request, "params");
      && Get(params, "name") == Str("refinePrompt")
      && ValidPrompt(Get(Get(params, "arguments"), "prompt")).Some?
  {
  }

  /** refinePrompt with a valid prompt returns the saved refinement and
      leaves the tables after it. */
  lemma RefineValidPrompt(t: Tables, args: Value, now: int, generate: Generator)
    requires ValidPrompt(Get(args, "prompt")).Some?
    ensures var clean := ValidPrompt(Get(args, "prompt")).value;
      && RefineResult(t, args, now, generate)
         == Returned(Refined(t.promptSeq + 1, clean, RefinedSaved(t, clean, now, generate)))
      && RefineTables(t, args, now, generate) == AfterRefinement(t, clean, now, generate)
  {
    assert Destructure(args, "prompt") == Returned(Get(args, "prompt"));
  }

  /** A refinePrompt call with a valid prompt answers with one text item
      holding the new prompt's id, the trimmed prompt and the saved variants,
      and leaves the tables after the refinement. */
  lemma RefineToolCall(t: Tables, params: Value, id: Value, now: int, generate: Generator)
    requires Get(params, "name") == Str("refinePrompt")
    requires ValidPrompt(Get(Get(params, "arguments"), "prompt")).Some?
    ensures var clean := ValidPrompt(Get(Get(params, "arguments"), "prompt")).value;
      && ToolCallResult(t, params, id, now, generate)
         == Returned(ToolResponse(id, Refined(t.promptSeq + 1, clean, RefinedSaved(t, clean, now, generate))))
      && ToolCallTables(t, params, now, generate) == AfterRefinement(t, clean, now, generate)
  {
    assert Destructure(params, "name") == Returned(Str("refinePrompt"));
    assert ToolOf(Str("refinePrompt")) == Some(RefinePromptTool);
    RefineValidPrompt(t, Get(params, "arguments"), now, generate);
  }

  /** After a refinement the new id finds the trimmed prompt. */
  lemma RefinementFindsPrompt(t: Tables, clean: string, now: int, generate: Generator)
    requires TablesValid(t)
    ensures FindById(AfterRefinement(t, clean, now, generate).prompts, PromptKey, t.promptSeq + 1)
      == Some(PromptRow(t.promptSeq + 1, clean, now))
  {
    var t1 := AddPrompt(t, clean, now);
    assert AfterRefinement(t, clean, now, generate).prompts == t1.prompts;
    AddPromptLookups(t, clean, now);
  }

  /** After a refinement, listing the new prompt's variants gives exactly the
      rows of the run, ordered by style. */
  lemma RefinementListsVariants(t: Tables, clean: string, now: int, generate: Generator)
    requires TablesValid(t)
    requires forall i :: 0 <= i < |t.variants| ==> t.variants[i].promptId <= t.promptSeq
    ensures var listed := VariantsOf(AfterRefinement(t, clean, now, generate).variants, t.promptSeq + 1);
      && multiset(listed) == multiset(RefinedRows(t.variantSeq + 1, t.promptSeq + 1, now, clean, generate))
      && SortedBy(listed, StyleLe)
  {
    var t1 := AddPrompt(t, clean, now);
    var rows := RefinedRows(t.variantSeq + 1, t.promptSeq + 1, now, clean, generate);
    assert AfterRefinement(t, clean, now, generate) == WithVariants(t1, rows);
    assert forall i :: 0 <= i < |t1.variants| ==> t1.variants[i].promptId != t.promptSeq + 1 by {
      FreshPromptHasNoVariants(t, clean, now);
    }
    RefinedVariantsListed(t1, t.variantSeq + 1, t.promptSeq + 1, now, clean, generate);
  }

  /** After a refinement the new id finds the trimmed prompt, and listing
      its variants gives exactly the rows of the run, ordered by style. */
  lemma RefinementReadBack(t: Tables, clean: string, now: int, generate: Generator)
    requires TablesValid(t)
    requires forall i :: 0 <= i < |t.variants| ==> t.variants[i].promptId <= t.promptSeq
    ensures var t' := AfterRefinement(t, clean, now, generate);
      var listed := VariantsOf(t'.variants, t.promptSeq + 1);
      && FindById(t'.prompts, PromptKey, t.promptSeq + 1) == Some(PromptRow(t.promptSeq + 1, clean, now))
      && multiset(listed) == multiset(RefinedRows(t.variantSeq + 1, t.promptSeq + 1, now, clean, generate))
      && SortedBy(listed, StyleLe)
  {
    RefinementFindsPrompt(t, clean, now, generate);
    RefinementListsVariants(t, clean, now, generate);
  }

  class PromptRefinerMCP {
    const store: Store

    ghost predicate Valid()
      reads this, store
    {
      store.Valid()
    }

    constructor(store: Store)
      ensures this.store == store
    {
      this.store := store;
    }

    /** The tables the store holds once initialised, as seen before a call. */
    ghost function Opened(): Tables
      reads this, store
    {
      TablesAfterInit(store.info, store.tables, store.env, store.disk)
    }

    /** refinePrompt: validates the argument, then saves the trimmed prompt
        and its variants. Nothing is written for an invalid prompt. */
    method RefinePrompt(args: Value, now: int, generate: Generator) returns (r: Outcome<ToolResult>)
      requires Valid()
      modifies store
      ensures Valid()
      ensures r == RefineResult(old(Opened()), args, now, generate)
      ensures Opened() == RefineTables(old(Opened()), args, now, generate)
      ensures r.Threw? || r == Returned(PromptRejected) ==> unchanged(store)
    {
      ghost var t0 := Opened();
      var prompt := Destructure(args, "prompt");
      if prompt.Threw? {
        return Threw(prompt.message);
      }
      var valid := ValidPrompt(prompt.value);
      if valid.None? {
        return Returned(PromptRejected);
      }
      var promptId, variants := SaveRefinement(valid.value, now, generate);
      r := Returned(Refined(promptId, valid.value, variants));
      assert r == RefineResult(t0, args, now, generate);
      assert Opened() == RefineTables(t0, args, now, generate);
    }

    /** The writing half of refinePrompt: the prompt once, then a variant per
        style in catalogue order, all under the new prompt's id; `generate`
        is generateVariantText bound to the prompt. */
    method SaveRefinement(clean: string, now: int, generate: Generator)
      returns (promptId: int, variants: seq<SavedVariant>)
      requires Valid()
      modifies store
      ensures Valid() && store.info.Some?
      ensures store.tables == AfterRefinement(old(Opened()), clean, now, generate)
      ensures promptId == old(Opened()).promptSeq + 1
      ensures variants == RefinedSaved(old(Opened()), clean, now, generate)
    {
      ghost var t0 := Opened();
      promptId := store.SavePrompt(clean, now);
      variants := SaveRun(store.tables, t0.variantSeq + 1, promptId, clean, now, generate);
    }

    /** The loop of refinePrompt: generates and saves one variant per style,
        in catalogue order, under `promptId`. */
    method SaveRun(ghost t: Tables, ghost first: int, promptId: int, clean: string, now: int, generate: Generator)
      returns (variants: seq<SavedVariant>)
      requires store.Valid() && store.info.Some? && store.tables == t
      requires first == t.variantSeq + 1
      modifies store
      ensures store.Valid() && store.info.Some?
      ensures store.tables == WithVariants(t, RefinedRows(first, promptId, now, clean, generate))
      ensures variants == SavedOf(RefinedRows(first, promptId, now, clean, generate))
    {
      ghost var rows := RefinedRows(first, promptId, now, clean, generate);
      var styles := GetAllStyles();
      variants := [];
      for k := 0 to |styles|
        invariant store.Valid() && store.info.Some?
        invariant store.tables == WithVariants(t, rows[..k])
        invariant variants == SavedOf(rows[..k])
      {
        var text := generate(clean, styles[k], k);
        RefinedRowAt(first, promptId, now, clean, generate, k);
        SavedNext(rows, k);
        var id := SaveNextVariant(t, rows, k, promptId, styles[k], text, now);
        variants := variants + [SavedVariant(id, styles[k], text)];
      }
      assert rows[..|styles|] == rows;
    }

    /** One pass of the loop of refinePrompt: saves the k-th row of the run. */
    method SaveNextVariant(ghost t: Tables, ghost rows: seq<VariantRow>, k: nat, promptId: int, style: string, text: string, now: int)
      returns (id: int)
      requires store.Valid() && store.info.Some?
      requires k < |rows| && rows[k] == VariantRow(t.variantSeq + 1 + k, promptId, style, text, now)
      requires store.tables == WithVariants(t, rows[..k])
      modifies store
      ensures store.Valid() && store.info.Some?
      ensures store.tables == WithVariants(t, rows[..k + 1])
      ensures id == rows[k].id
    {
      WithNextVariant(t, rows, k);
      id := store.SaveVariant(promptId, style, text, now);
    }

    /** The getHistory tool: `args?.limit || 20` newest prompts with their
        variants; the empty result when there are none. */
    method GetHistory(args: Value) returns (r: Outcome<ToolResult>)
      requires Valid()
      modifies store
      ensures Valid() && store.info.Some?
      ensures store.tables == old(Opened())
      ensures r == HistoryResult(old(Opened()), args)
      ensures r.Threw? <==> HistoryLimitArg(args).Threw?
    {
      var limit := HistoryLimitArg(args);
      if limit.Threw? {
        store.InitDatabase();
        return Threw(limit.message);
      }
      var history := store.GetHistory(Some(limit.value));
      ghost var t := store.tables;
      ghost var selected := HistoryPrompts(t.prompts, limit.value);
      if |history| == 0 {
        r := Returned(NoHistory);
      } else {
        assert history == seq(|selected|, i requires 0 <= i < |selected| => Annotated(selected[i], t.variants));
        r := Returned(History(history));
      }
    }

    /** handleToolCall: routes by tool name; a known tool's result is wrapped
        in a single text item, an unknown name is answered with -32602. */
    method HandleToolCall(params: Value, id: Value, now: int, generate: Generator) returns (r: Outcome<Envelope>)
      requires Valid()
      modifies store
      ensures Valid()
      ensures r == ToolCallResult(old(Opened()), params, id, now, generate)
      ensures Opened() == ToolCallTables(old(Opened()), params, now, generate)
      ensures Nullish(params) || ToolOf(Get(params, "name")).None? ==> unchanged(store)
    {
      var name := Destructure(params, "name");
      if name.Threw? {
        return Threw(name.message);
      }
      var args := Get(params, "arguments");
      var tool := ToolOf(name.value);
      if tool.None? {
        return UnknownToolResponse(id, name.value);
      }
      var result;
      if tool.value == RefinePromptTool {
        result := RefinePrompt(args, now, generate);
      } else {
        result := GetHistory(args);
      }
      match result
      case Threw(message) => r := Threw(message);
      case Returned(value) => r := Returned(ToolResponse(id, value));
    }

    /** handleRequest as written: destructuring a nullish request throws
        before the try, and a tool call's promise is returned unawaited, so a
        tool call that rejects makes the request reject. */
    method HandleRequest(request: Value, now: int, generate: Generator) returns (r: Outcome<Envelope>)
      requires Valid()
      modifies store
      ensures Valid()
      ensures r == RequestResult(old(Opened()), request, now, generate)
      ensures Opened() == RequestTables(old(Opened()), request, now, generate)
      ensures Nullish(request) ==> r.Threw?
      ensures Nullish(request) || RouteOf(Get(request, "method")) != CallToolRoute ==> unchanged(store)
    {
      var rpcMethod := Destructure(request, "method");
      if rpcMethod.Threw? {
        return Threw(rpcMethod.message);
      }
      var params, id := Get(request, "params"), Get(request, "id");
      var toolCall: Outcome<Envelope> := Threw("");
      if RouteOf(rpcMethod.value) == CallToolRoute {
        toolCall := HandleToolCall(params, id, now, generate);
      }
      r := RequestOutcomeAsWritten(rpcMethod.value, id, toolCall);
    }

    /** The `line` handler of main. `parsed` is JSON.parse's result, `None`
        when it throws. */
    method HandleLine(raw: string, parsed: Option<Value>, now: int, generate: Generator) returns (out: Option<Envelope>)
      requires Valid()
      modifies store
      ensures Valid()
      ensures out.None? <==> Trim(raw) == ""
      ensures Trim(raw) == "" || parsed.None? ==> unchanged(store)
      ensures out.Some? && parsed.None? ==> out.value == ParseErrorResponse()
      ensures Trim(raw) != "" && parsed.Some? ==>
        && out == LineResponse(raw, parsed, RequestResult(old(Opened()), parsed.value, now, generate))
        && Opened() == RequestTables(old(Opened()), parsed.value, now, generate)
      ensures out.Some? && parsed.Some? ==> out.value.id == Get(parsed.value, "id") || out.value == ParseErrorResponse()
    {
      if Trim(raw) == "" {
        return None;
      }
      if parsed.None? {
        return Some(ParseErrorResponse());
      }
      var handled := HandleRequest(parsed.value, now, generate);
      RequestSettles(old(Opened()), parsed.value, now, generate);
      out := LineResponse(raw, parsed, handled);
    }
  }
}
