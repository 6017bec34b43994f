# prompt-refiner, modelled in Dafny

prompt-refiner is a small MCP server that speaks JSON-RPC 2.0 over stdin and
stdout. Its `refinePrompt` tool trims a prompt and stores it in SQLite. It
then asks a language model for one rewrite per style (concise, detailed,
creative, analytical) and stores each rewrite as a variant. When the model
cannot be reached, a fixed fallback text is stored instead. Its `getHistory`
tool lists the newest prompts with their variants. A positional line diff and
the style catalogue live in the LLM adapter. The database location comes from
a configuration file, with fallback to a temp directory and then to memory.

The model has seven modules:

- `Js` (js.dfy): the JavaScript runtime the server relies on. This covers
  JSON values with `undefined`, truthiness, property reads and destructuring,
  and `${v}`. It also covers `split`/`join` on one character, `trim`, and
  `replace`, with its `$` substitution patterns.
- `Sql` (sql.dfy): what the SQL statements select. This is the BINARY
  collation of `ORDER BY`, a stable sort, `WHERE` as a filter and `LIMIT`,
  where a negative limit means no limit.
- `LlmAdapter` (llm_adapter.dfy): `STYLE_GUIDANCE`, `getStyleGuidance`,
  `getAllStyles` and `generateDiff`. `generateDiff` is a method with its loop,
  proved equal to a specification function `Diff`. Lemmas about `Diff` state
  what a diff means.
- `Config` (config.dfy): `loadConfig` and the three-tier `getDatabasePath`.
  File-system probes are boolean inputs.
- `Db` (db.dfy): the module state of db.js as a class `Store`. It holds the
  resolved location and the open tables, and its methods are the exported
  functions. Both tables are append-only and use AUTOINCREMENT ids.
- `Protocol` (protocol.dfy): the pure parts of index.js. These are
  `escapeJsString`, the fallback variants, the text taken from the model's
  reply, the tool catalogue, the envelopes and the routing.
- `Server` (server.dfy): the class `PromptRefinerMCP`. It holds
  `refinePrompt` and its insert loop, `getHistory`, `handleToolCall`,
  `handleRequest` and the per-line handler of `main`.

Inputs the model takes as parameters:

- generateVariantText is a parameter `generate` of the server's methods. It
  maps the prompt, the style and the call's number within one `refinePrompt`
  to a text. `Server.GenerateVariantText` is the instance the source runs. It
  puts the messages API behind an oracle `reply: nat -> ModelReply`, where a
  reply is either a failure or the texts of the content items.
- The clock is an integer `now` that stamps the inserts of one request.
- The files a database path already holds are a map `disk` from path to
  tables.
- What `JSON.parse` made of a line is an `Option<Value>`.

A diff against the empty text is not all `added` entries. `"".split('\n')` is
`[""]`, and the shorter side is padded with empty lines. So every empty line
of `y` gives a `same` entry with empty text in `diff("", y)`, at its own
position. Only the non-empty lines of `y` give `added` entries.
`LlmAdapter.DiffAgainstEmpty` states this.

The server follows the code as written, including the two defects listed
under "## Findings". `handleRequest` returns a tool call's promise without
awaiting it, and `loadConfig` hands the home directory to `replace` as a
pattern. Beside each as-written member stands the corrected one, with a lemma
that says where the two differ.

## Model

| member | source | states |
|---|---|---|
| Js.Get | server/index.js:213 | reading a property of a non-object gives `undefined`; of an object, a defined value exactly when the key is present with a defined value |
| Js.Destructure | server/index.js:263 | `const { key } = v` throws exactly when `v` is null or undefined, and otherwise reads the property |
| Js.OptionalGet | server/index.js:411 | `v?.key` never throws: `undefined` for a nullish `v`, the property otherwise |
| Js.NatToString | server/index.js:224 | the decimal numeral of a number: digits only, no leading zero, and its digit value (`Js.DigitsValue`) is the number |
| Js.Display | server/index.js:224 | `${v}` throws "Cannot convert object to primitive value" exactly for an object with an own `toString`, or an array with such an item that is not null or undefined; a string shows as itself, any other object as `[object Object]` |
| Js.Split | server/llmAdapter.js:34-35 | `split('\n')` yields at least one piece and no piece holds the separator |
| Js.JoinSplit | server/llmAdapter.js:34-35 | joining the lines of a text gives the text back |
| Js.SplitJoin | server/llmAdapter.js:34-35 | `split` undoes `join` on pieces that do not hold the separator, the general fact behind splitting texts into lines |
| Js.SplitCount | server/llmAdapter.js:34-35 | a text has one more line than it has newlines |
| Js.TrimStart | server/index.js:289 | removes exactly the leading white space |
| Js.TrimEnd | server/index.js:289 | removes exactly the trailing white space |
| Js.Trim | server/index.js:289 | the result neither starts nor ends with white space, and is empty exactly when the text is all white space |
| Js.TrimBothEnds | server/index.js:293 | trimming the end after the start keeps a text without white space at either end, empty only for an all-white-space input |
| Js.SubstituteLiteral | server/config.js:26 | a replacement text without `$` is inserted literally |
| Js.SubstituteLiteralPrefix | server/config.js:26 | a `$`-free prefix of a replacement text is copied, the rest substituted on its own |
| Js.IndexOf | server/config.js:26 | the position of the first occurrence, or the length when there is none |
| Js.ReplaceFirst | server/config.js:26 | `replace` of a character: a text without it is unchanged; the text before its first occurrence is kept; a `$`-free replacement is put in its place literally |
| Js.ReplaceAll | server/index.js:61-64 | a global replace changes nothing in a text without the character |
| Js.ReplaceAllAppend | server/index.js:61-64 | a global replace of one character works piece by piece over a concatenation |
| Sql.TextLeTotal | server/db.js:90 | any two texts are ordered one way or the other by the BINARY collation |
| Sql.TextLeTransitive | server/db.js:90 | the collation order is transitive |
| Sql.TextLeAntisymmetric | server/db.js:90 | texts ordered both ways are equal |
| Sql.Insert | server/db.js:90 | inserting into a sorted sequence keeps it sorted and adds exactly that element |
| Sql.SortBy | server/db.js:90 | `ORDER BY` returns a sorted permutation of the rows |
| Sql.Where | server/db.js:89-91 | `WHERE` keeps exactly the rows satisfying the condition, no more rows than there were |
| Sql.Limit | server/db.js:104 | `LIMIT n` keeps the first `n` rows, all of them when `n` is negative or too large |
| Sql.WhereAppend | server/db.js:89-91 | filtering a concatenation filters each part |
| Sql.WhereAllOrNone | server/db.js:89-91 | a filter keeps everything when every row matches and nothing when none does |
| LlmAdapter.Lookup | server/llmAdapter.js:25-27 | a key lookup finds an entry exactly for the declared keys, and the entry it finds is declared under that key |
| LlmAdapter.GetAllStylesAreKeys | server/llmAdapter.js:29-31 | getAllStyles is the catalogue's keys in declaration order |
| LlmAdapter.StylesAreOwnKeys | server/llmAdapter.js:2-23 | no style name is a member of Object.prototype, so a style never reads an inherited property |
| LlmAdapter.GetStyleGuidance | server/llmAdapter.js:25-27 | `STYLE_GUIDANCE[style]`, or null when that is falsy: an own entry exactly for the four styles, namely the entry declared under that style; the inherited member exactly for a name of Object.prototype (all truthy); null for any other key |
| LlmAdapter.CatalogueKeysDistinct | server/llmAdapter.js:2-23 | no style is declared twice, so each style names one entry |
| LlmAdapter.LineEntries | server/llmAdapter.js:44-53 | one index contributes one or two entries |
| LlmAdapter.LineEntriesShape | server/llmAdapter.js:44-53 | `same` exactly for equal lines; otherwise only changes with non-empty text, `removed` present exactly for a non-empty original line and before `added`, present exactly for a non-empty refined line |
| LlmAdapter.GenerateDiff | server/llmAdapter.js:33-57 | the loop computes the positional diff of the two line sequences, shorter side padded with empty lines |
| LlmAdapter.DiffLength | server/llmAdapter.js:38-54 | the diff has between maxLines and twice maxLines entries |
| LlmAdapter.DiffChangesNonEmpty | server/llmAdapter.js:47-52 | no `removed` or `added` entry carries an empty line |
| LlmAdapter.DiffOfSelf | server/llmAdapter.js:44-45 | a text diffed against itself is one `same` entry per line, in order |
| LlmAdapter.NonEmpty | server/llmAdapter.js:47-52 | the non-empty lines are all non-empty |
| LlmAdapter.DiffSides | server/llmAdapter.js:33-57 | the `same`+`removed` entries read back the non-empty lines of the original, and the `same`+`added` entries those of the refined text, in order |
| LlmAdapter.DiffAgainstEmpty | server/llmAdapter.js:33-57 | against an empty text each non-empty line is `added` (resp. `removed`) in order, and each empty line is a `same` entry with empty text |
| Config.ExpandTilde | server/config.js:25-27 | the intended expansion is the home directory followed by the path after `~` |
| Config.ExpandTildeAsWritten | server/config.js:26 | as written: a path without `~` is unchanged; with a `$`-free home directory the first `~` is replaced by the home directory |
| Config.ExpandTildeAgrees | server/config.js:26 | without `$` in the home directory, `replace('~', home)` is the intended expansion |
| Config.ExpandTildeDollarQuote | server/config.js:26 | with a home directory ending in `$'`, `replace` drops the `$'` and pastes the rest of the path twice |
| Config.LoadConfig | server/config.js:18-41 | the default path when the file is missing or unreadable; a falsy configured value as it is; a path starting with `~` put through `replace('~', home)` as written, which is the home directory followed by the rest of the path when the home directory has no `$`; another string as it is; a truthy non-string replaced by the default because `startsWith` throws |
| Config.GetDatabasePath | server/config.js:47-111 | `:memory:` is taken as it is; the configured path exactly when it is a usable string; the temp directory exactly when the configured tier fails and temp is writable; memory otherwise |
| Config.FallbackPrefersTemp | server/config.js:77-98 | an unwritable configured location falls back to the temp directory when that is writable |
| Config.MissingPathSkipsConfigured | server/config.js:49-80 | a configuration without `database_path` never uses the configured tier |
| Db.FindById | server/db.js:77-85 | `WHERE id = ?` finds a row exactly when one has the id, and the row it finds has it |
| Db.FindByIdFindsRow | server/db.js:77-85 | with AUTOINCREMENT ids, looking up a row's id finds that row |
| Db.FindByIdAppend | server/db.js:59-85 | an insert leaves every earlier lookup as it was |
| Db.AddPrompt | server/db.js:59-66 | the insert appends one prompt row with the next id, the text and the time, and changes nothing else |
| Db.AddVariant | server/db.js:68-75 | the insert appends one variant row with the next id, the prompt id, style, text and time, and changes nothing else |
| Db.AddPromptKeepsValid | server/db.js:59-66 | a new prompt gets an id above every earlier id, and no existing row changes |
| Db.AddPromptLookups | server/db.js:59-66 | the returned id finds the new prompt and every other id finds what it found before |
| Db.AddVariantKeepsValid | server/db.js:68-75 | a new variant gets an id above every earlier id, and no existing row changes |
| Db.AddVariantLookups | server/db.js:68-75 | the returned id finds the new variant and every other id finds what it found before |
| Db.StyleOrder | server/db.js:90 | ordering variants by style is a total preorder |
| Db.VariantsOf | server/db.js:87-93 | the variants of a prompt, each as often as it is stored, none of another prompt, sorted by style |
| Db.HistoryPrompts | server/db.js:97-105 | at most `limit` prompts, all when the limit is negative, newest first |
| Db.PrefixIsNewest | server/db.js:103 | in newest-first order a prefix row is at least as new as any later row |
| Db.HistoryKeepsNewest | server/db.js:97-105 | the selection is drawn from the table and no prompt left out is newer than one selected |
| Db.HistoryLimit | server/db.js:95 | the default limit is 50 |
| Db.OpenTables | server/db.js:25-47 | an in-memory or new database opens empty, an existing file with its tables |
| Db.InitTwiceIsInitOnce | server/db.js:11 | a second initDatabase changes neither the location nor the tables |
| Db.Store.constructor | server/db.js:7-8 | the module starts with no handle and no location |
| Db.Store.InitDatabase | server/db.js:10-50 | the first call resolves the location and opens it, later calls change nothing |
| Db.Store.GetDatabaseInfo | server/db.js:52-57 | the location in use, initialising first when there is none |
| Db.Store.SavePrompt | server/db.js:59-66 | appends one prompt row and returns its new id, after initialising |
| Db.Store.SaveVariant | server/db.js:68-75 | appends one variant row and returns its new id, after initialising |
| Db.Store.GetPrompt | server/db.js:77-80 | the prompt row with that id, if any; nothing is written |
| Db.Store.GetVariant | server/db.js:82-85 | the variant row with that id, if any; nothing is written |
| Db.Store.GetVariantsForPrompt | server/db.js:87-93 | the prompt's variants ordered by style; nothing is written |
| Db.Store.GetHistory | server/db.js:95-123 | one entry per selected prompt, in order, each carrying the summaries of its variants; nothing is written |
| Db.Store.Annotate | server/db.js:108-120 | the loop attaches to each selected prompt the `{style, text}` of its variants ordered by style |
| Protocol.EscapeJsStringPerChar | server/index.js:58-65 | the replace chain escapes the text one character at a time |
| Protocol.EscapeJsString | server/index.js:58-65 | `''` for the empty text, otherwise the chain of four replaces, is the per-character escape |
| Protocol.UnescapeEscapeJsString | server/index.js:58-65 | reading the escaped text back gives the original |
| Protocol.EscapeJsStringLength | server/index.js:58-65 | the escape adds one character per backslash, backtick, dollar sign and newline |
| Protocol.EscapeJsStringShape | server/index.js:58-65 | no raw newline remains and every backtick or dollar sign is preceded by a backslash |
| Protocol.FallbackVariant | server/index.js:394-408 | the prompt, then for a known style a blank line and that style's fixed text; the prompt alone otherwise |
| Protocol.FallbackCoversCatalogue | server/index.js:396-407 | the fallback switch has a case for exactly the four catalogue styles |
| Protocol.RepliedText | server/index.js:379-386 | the trimmed, newline-joined non-blank text parts when that is non-empty, the original prompt otherwise; hence never empty for a non-empty prompt, and without white space at either end when the prompt has none |
| Protocol.VariantText | server/index.js:336-392 | a failed call gives exactly the fallback variant, a successful one exactly `RepliedText` of its parts; never empty for a non-empty prompt; a fallback starts with the prompt; a reply has no white space at either end when the prompt has none |
| Protocol.ResultObject | server/index.js:289-333 | refinePrompt's objects here, getHistory's at server/index.js lines 427-432 and 525-531: `success` is false only for a rejected prompt; `variantCount`, resp. `count`, is the number of variants, resp. history entries; the empty history has count 0 and no `instructions` |
| Protocol.ErrorResponse | server/index.js:534-540 | an error envelope with the given id, code and message |
| Protocol.InitializeResponse | server/index.js:231-246 | a successful result under the request's id with protocol version 2024-11-05, capabilities `{tools: {}}`, server name prompt-refiner and version 2.0.0 |
| Protocol.ListToolsResponse | server/index.js:248-260 | the two tool descriptors under the request's id |
| Protocol.ToolResponse | server/index.js:277-283 | one text item holding the tool's result, under the request's id |
| Protocol.ParseErrorResponse | server/index.js:562-566 | code -32700, id null, message "Parse error" |
| Protocol.RouteOf | server/index.js:216-225 | each of the three method names selects its handler, anything else is unknown |
| Protocol.ToolOf | server/index.js:266-274 | the two tool names select their tool, anything else is unknown |
| Protocol.UnknownToolResponse | server/index.js:273-274 | an unknown tool is answered with -32602 under the request's id and "Unknown tool: <name>"; building the message throws "Cannot convert object to primitive value" exactly when the name cannot be printed |
| Protocol.RequestOutcomeAsWritten | server/index.js:212-229 | as written: a tool call's outcome is handed back as it is, a rejection included; every other method answers under the request's id |
| Protocol.RequestOutcome | server/index.js:212-229 | the corrected handler: initialize and tools/list answer under the id; a tool call's envelope is passed through and its error becomes -32603 under the id; an unknown method is -32601 "Method not found: <method>", or -32603 when the method cannot be printed |
| Protocol.RequestOutcomeAgrees | server/index.js:215-228 | the corrected and the written handleRequest agree except when a tool call throws, which the written one lets escape |
| Protocol.LineResponse | server/index.js:554-569 | a blank line gets no answer; a line that fails to parse or whose handling throws gets the parse error; otherwise the handler's envelope |
| Protocol.UnawaitedToolCallLosesId | server/index.js:222 | a tools/call request without params gets, as written, a parse error with id null instead of -32603 with its id |
| Protocol.ValidPrompt | server/index.js:289-293 | a prompt is accepted exactly when it is a string with a non-white-space character, and becomes its trimmed text |
| Protocol.HistoryLimitArg | server/index.js:411-412 | a falsy limit becomes 20, a non-zero number is kept, and a limit that is passed on is never 0 |
| Server.RefinedRowsShape | server/index.js:299-320 | with generateVariantText over the oracle: one row per style in catalogue order, with consecutive ids, all under the new prompt, each holding the text for its style and its reply |
| Server.RefinedRowAt | server/index.js:312-314 | the k-th row of a run has id first+k, the k-th style and the k-th generated text |
| Server.SavedOf | server/index.js:315-319 | the variants list holds `{id, style, refined_text}` of each inserted row, in order |
| Server.WithNextVariant | server/index.js:314 | saving the next variant extends the stored run by that row |
| Server.SavedNext | server/index.js:315-319 | pushing the next saved variant extends the list by that row |
| Server.RefinedVariantsListed | server/index.js:312-320 | after refinePrompt, listing the new prompt's variants gives exactly the saved ones, ordered by style |
| Server.FreshPromptHasNoVariants | server/index.js:296 | a newly saved prompt has no variants yet |
| Server.RefineOutcomes | server/index.js:286-334 | refinePrompt throws exactly for nullish arguments and rejects exactly an invalid prompt, writing nothing in both cases; a refinement carries the next prompt id, the trimmed prompt and four variants, and appends the prompt row |
| Server.RefineValidPrompt | server/index.js:286-334 | a valid prompt returns the refinement under the next prompt id with the trimmed prompt and the saved variants, and leaves the tables after the refinement |
| Server.ToolCallAnswersUnderId | server/index.js:262-284 | every envelope a tool call settles with carries the request's id |
| Server.RequestSettles | server/index.js:212-229 | a request settles with an envelope under its id, or rejects exactly when it is nullish or a tools/call whose tool call rejects |
| Server.ToolCallWithoutParamsLosesId | server/index.js:222 | as written, a tools/call request without params rejects, and its line is answered with the parse error under id null |
| Server.OnlyRefinementWrites | server/index.js:286-320 | a request that changes the tables is a refinePrompt tools/call with a valid prompt |
| Server.RefineToolCall | server/index.js:262-284 | a refinePrompt call with a valid prompt answers with one text item holding the refinement under the request's id, and leaves the tables after the refinement |
| Server.RefinementFindsPrompt | server/index.js:293-296 | after a refinement the new prompt id finds the trimmed prompt |
| Server.RefinementListsVariants | server/index.js:311-320 | after a refinement, listing the new prompt's variants gives exactly the rows of the run, ordered by style |
| Server.RefinementReadBack | server/index.js:293-320 | after a refinement the new id finds the trimmed prompt, and its variants are exactly the rows of the run, ordered by style |
| Server.PromptRefinerMCP.constructor | server/index.js:179-210 | the server works on the given store |
| Server.PromptRefinerMCP.RefinePrompt | server/index.js:286-334 | returns `RefineResult` and leaves `RefineTables` of the tables it opened on; writes nothing when it throws or rejects the prompt (see RefineOutcomes and RefineValidPrompt for what these are) |
| Server.PromptRefinerMCP.SaveRefinement | server/index.js:293-320 | stores the prompt once under the next id and then one variant per style under it, in catalogue order: the new tables are `AfterRefinement` of the old and the returned list is the saved rows |
| Server.PromptRefinerMCP.SaveRun | server/index.js:311-320 | the loop saves one variant per style under the prompt id, in catalogue order, and returns `{id, style, refined_text}` of each |
| Server.PromptRefinerMCP.SaveNextVariant | server/index.js:313-314 | one pass of the loop stores the next row of the run |
| Server.PromptRefinerMCP.GetHistory | server/index.js:410-532 | throws exactly when the limit cannot be bound; otherwise no history, or one entry per selected prompt with its variants ordered by style (`HistoryResult`); the tables are unchanged |
| Server.PromptRefinerMCP.HandleToolCall | server/index.js:262-284 | returns `ToolCallResult` and leaves `ToolCallTables` of the tables it opened on: nullish params throw, an unknown tool is UnknownToolResponse without writing, a known tool's result is one text item under the request's id (RefineToolCall) |
| Server.PromptRefinerMCP.HandleRequest | server/index.js:212-229 | as written: returns `RequestResult` and leaves `RequestTables`; throws for a nullish request; anything but tools/call writes nothing (RequestSettles: answers under the id or rejects) |
| Server.PromptRefinerMCP.HandleLine | server/index.js:554-569 | a blank line gets no answer and writes nothing; a line that is not JSON gets the parse error; otherwise the line answer of `RequestResult`, which carries the request's id or is the parse error with id null |

## Left out

- The JSX `artifact` texts that refinePrompt and getHistory return, and `STYLE_CONFIG` (index.js:19-56, 68-176, 415-523), are presentation only. `escapeJsString`, which they use, is modelled.
- `generateVariantText` builds a request and calls `fetch`. The network call is the oracle `reply`, and the request body is not modelled.
- `JSON.parse`, `JSON.stringify` and the `readline` interface are outside the model. The line handler gets the parse result as input, and tool results are `Value`s before stringification.
- getHistory stores each entry's `variants` as a JSON string that the tool parses back. The model keeps the parsed list, so the round trip is assumed.
- File-system probes are booleans in `Environment`: `existsSync`, `mkdirSync`, the test write and `unlinkSync`. So are the read of config.json and the creation of a default one. The console output is left out.
- `CURRENT_TIMESTAMP` is an integer clock reading `now`. All inserts of one request get the same reading.
- Rows with the same `created_at` or the same style tie. The model orders ties stably by insertion, which SQLite does not promise.
- JavaScript numbers are integers here. Fractional and non-finite limits are not modelled, and neither is the 64-bit range of SQLite ids. `Js.Display` and `Js.IntToString` write every number in full digits, while JavaScript writes a number of magnitude 1e21 or more in exponent form (`1e+21`).
- Protocol.HistoryLimitArg: a numeric string limit, such as `"5"`, and an array limit, such as `[5]` (bound as the text `"5"`), are treated as a datatype mismatch, so the model throws. SQLite would convert them.
- The `line` handler is async, so lines can interleave while a tool call waits. The model handles one line at a time.
- `main`'s startup `initDatabase()` and its exit handlers are not a separate member. `Db.Store.InitDatabase` is what startup runs.
- Db.Store.InitDatabase: opening the database never fails in the model. SQLite errors from a locked or corrupt file and a failed `mkdirSync` are not modelled.
- Db.Store.SavePrompt: the insert never fails in the model, so no SQLite error reaches refinePrompt.
- Db.Store.SaveVariant: the insert never fails in the model, so no SQLite error reaches refinePrompt.
- Config.PathJoin: `path.join` is `dir + "/" + name`. The platform separator and the normalisation of `.`, `..` and doubled separators are not modelled.
- LlmAdapter.GetStyleGuidance: the style is a string. The key conversion of other values and the inherited member's value are not modelled; the result names the member.
- Server.PromptRefinerMCP.RefinePrompt: `variantCount`, `outputType` and `instructions` are only in `Protocol.ResultObject`. The constant `instructions` texts of refinePrompt and getHistory are built in its body; its ensures state only `success`, `variantCount` and `count`.

## Findings

| source | as written | input that shows it | evidently intended | confidence | as-written member | corrected member |
|---|---|---|---|---|---|---|
| server/index.js:222 | `return this.handleToolCall(params, id)` inside the `try` of an async function, without `await`: a tool call that throws rejects the returned promise after the `try` has been left, so the `catch` at 226-228 never sees it and the line handler answers `-32700 "Parse error"` with id null | `{"id":7,"method":"tools/call"}` (no `params`: destructuring them throws) | the catch turns the error into `-32603` with the error's message under id 7 | not executed | Protocol.RequestOutcomeAsWritten, Protocol.UnawaitedToolCallLosesId | Protocol.RequestOutcome |
| server/config.js:26 | `config.database_path.replace('~', os.homedir())` passes the home directory as a replacement string, so `$'`, `` $` ``, `$&` and `$$` in it are substitution patterns | home directory `/u/$'`, `database_path` `~/x.db`: the result is `/u//x.db/x.db` | the home directory inserted literally: `/u/$'/x.db` | not executed | Config.ExpandTildeAsWritten, Config.ExpandTildeDollarQuote | Config.ExpandTilde |
