# Tool-augmented turn loop of the research chatbots

This project models the turn loop of two chatbots that answer a query with a language model. The model may ask for tools to be run.

- `chatbot.py` sends the model a fixed catalog of two tools, `search_papers` and `extract_info`. It runs their calls through the `mapping_tool_function` table and `execute_tool`.
- `mcp_chatbot.py` gets its catalog and its tool calls from a session with an MCP server.

Both run the same `process_query` loop. The history starts as the user's query, followed by one model call. Each pass of a `while` loop then starts a fresh `assistant_content` list and walks the blocks of the response current at the start of the pass:

- a text block joins the list; it clears the loop flag when the *latest* response has exactly one block;
- a tool-use block also joins the list. The list itself is then appended to the history, the tool runs, and its result is appended as a user entry. The model is called again with the whole history, and the post-tool test decides whether to stop.

The two chatbots differ in three places. The direct one prints every text block, and it stops after a tool call when the follow-up response is one text block. The MCP one prints no answer text (its "Calling tools" line at mcp_chatbot.py:51 is not modelled), and its post-tool test reads `.type` on the block list.

## How it is modelled

- `messages.dfy` (module `Messages`) defines the blocks, history entries, tool-result content, the two Python exceptions that can escape, and the record of a model call.
- `tool_catalog.dfy` (module `ToolCatalog`) holds:
  - the `tools` catalog, as a constant with its descriptions and schemas;
  - `mapping_tool_function`, built from two tool-function oracles;
  - `execute_tool` and its result normalisation.
- `turn_loop.dfy` (module `TurnLoop`) is the loop, shared by both chatbots. A `Variant` says which chatbot runs it. An `Env` bundles the model service (a function from history and catalog to a response), the catalog and the tool executor.
  - Value level: the loop is stated as functions: `Step` for one block, `PassFrom` and `RunPass` for a pass, `Loop` and `Run` for the call. A pass keeps the history entries it pushed as slots. Every assistant slot shows the one current `assistant_content` list, because Python appends that same list object each time.
  - Heap level: `ProcessQuery` is an imperative method over a `messages` sequence whose assistant entries refer to `AssistantContent` objects. It is proved to compute `Run` exactly, including the aliasing of the shared list.
- `turn_loop_facts.dfy` (module `TurnLoopFacts`) proves properties that hold for every variant and every model, tool and catalog.
- `chatbot.dfy` (module `Chatbot`) instantiates the loop for `chatbot.py`.
- `mcp_chatbot.dfy` (module `McpChatbot`) holds:
  - the `MCP_Chatbot` class, with its `session` and `available_tools` fields;
  - the catalog projection;
  - the MCP loop and its properties.

A call is given `fuel`, a bound on passes of the `while` loop; it ends `Done(history)`, `Raised(error)` or `OutOfFuel`. Fuel bounds passes, not model calls, because a response without tool use can make the loop run forever without calling the model again.

### Behaviour of the code worth knowing

- After one tool call whose follow-up is a single text block, the history has three entries: the query, the assistant entry and the tool result. The answer is printed but never appended. See `Chatbot.OneToolThenText`.
- On an empty response the `for` loop does nothing, the flag stays set and the `while` loop repeats forever without calling the model again. The same happens for any response without tool use whose length is not 1. See `TurnLoopFacts.FirstResponseSpins`.
- A tool name missing from `mapping_tool_function` raises `KeyError` out of `process_query`; no error result reaches the model. See `Chatbot.UnknownToolRaises`.
- A tool call does not end the processing of its response. The `for` loop goes on over the rest of the old response after the follow-up response has replaced `response`. Later tool uses append to the same `assistant_content` list, so the model can be shown an assistant entry with a tool use that the next entry does not answer. See `TurnLoopFacts.SharedAssistantList` and `Chatbot.StopOnLatestLength`.

## Model

| member | source | states |
|---|---|---|
| TurnLoop.ProcessQuery | chatbot.py:73-122 | the imperative loop, with the `assistant_content` list shared by reference between history entries, returns exactly the outcome, model calls and printed texts of `Run` |
| TurnLoop.Pass | chatbot.py:84-118 | one pass (fresh list, `for` over the blocks of the response current at the start of the pass) computes `RunPass`, and afterwards the history with every shared list read through equals the value-level history |
| TurnLoop.HandleBlock | chatbot.py:86-122 | one block of the inner loop changes history, response, flag, printed texts and model calls exactly as `Step` says |
| TurnLoop.HandleToolUse | chatbot.py:95-118 | a tool-use block appends to the shared list, pushes the list and then the tool result, and stops with the executor's error when it fails |
| TurnLoop.FollowUp | chatbot.py:115-122 | the follow-up call receives the whole current history with the catalog; the post-tool test is then applied to the new response |
| TurnLoop.Run | chatbot.py:73-122 | `process_query` is the start state followed by the `while` loop; its first model call is the query alone with the catalog |
| TurnLoop.Start | chatbot.py:75-82 | before the loop the history is the query alone, the model has been called once with it and the catalog, the flag is set, no answer text is printed and nothing has raised |
| TurnLoop.Loop | chatbot.py:82-84 | a raised exception ends the call with that error, a cleared flag ends it with the current history, and with no passes left no model call is made |
| TurnLoop.LoopKeepsRequests | chatbot.py:83-118 | the model calls made before the `while` loop stay, in order, at the front of the calls it ends with |
| TurnLoop.RunPass | chatbot.py:84-86 | a pass (started by `Begin`, the fresh list of line 84), over the response current at its start, never removes a model call |
| TurnLoop.PassFrom | chatbot.py:86-122 | the inner loop stops at once when a block has raised, and never removes a model call |
| TurnLoop.PassFromKeepsRequests | chatbot.py:86-118 | the model calls made before the inner loop stay, in order, at the front of the calls it ends with |
| TurnLoop.Step | chatbot.py:86-122 | a text block joins the list without a model call (printed only where `Echoes` holds, line 89, not in mcp_chatbot.py:38-39), and clears the flag when the latest response has one block; a failing tool raises its error without a model call; a tool that runs adds exactly one model call, after `PushAssistant` (lines 97-98) and `PushResult` (lines 106-114) |
| TurnLoop.CallModel | chatbot.py:115-118 | the model receives the whole current history and the catalog; the call is recorded and its answer becomes the response; history, flag and printed texts stay |
| TurnLoop.PostTool | chatbot.py:120-122 | the post-tool test raises its error, or keeps the flag set unless it says stop and prints what `Announce` gives for the variant (line 121); history, model calls and response stay |
| TurnLoop.AssistantContent.Append | chatbot.py:90 | `assistant_content.append` adds the block at the end of the list and changes nothing else |
| TurnLoop.AfterTool | mcp_chatbot.py:71-72 | the direct chatbot stops exactly on a single text block (chatbot.py:120); the MCP chatbot raises `AttributeError("type")` exactly on a one-block response and never stops otherwise |
| TurnLoopFacts.RequestsCorrelated | chatbot.py:97-118 | call k gets the catalog and a history of 2k+1 entries starting with the query; after a tool call the last two entries are an assistant entry ending with that tool use and a result with its id and the executor's content; later calls and the final history keep each earlier result in place, with the assistant entry before it only extended |
| TurnLoopFacts.NoToolPass | chatbot.py:83-93 | a pass over a response without tool use leaves history, model calls and response unchanged; it clears the flag exactly when the response has one block, and the direct chatbot prints its texts again |
| TurnLoopFacts.SpinsForever | chatbot.py:83-93 | from a state whose response has no tool use and a length other than 1, every pass bound runs out with no further model call |
| TurnLoopFacts.FirstResponseSpins | chatbot.py:75-93 | a first response without tool use and of length other than 1, the empty one included, makes the call run out of every pass bound after one model call |
| TurnLoopFacts.ImmediateAnswer | chatbot.py:75-93 | a first response that is one text block returns the query alone as history, after one model call, having printed that text if the variant prints |
| TurnLoopFacts.DoneAfterOneCall | chatbot.py:75-122 | the call returns after exactly one model call if and only if the first response is a single text block |
| TurnLoopFacts.FirstToolCall | chatbot.py:95-118 | a tool use that is the first block of the first response gives the history query, assistant entry holding just that tool use, its result, and the second model call receives that history |
| TurnLoopFacts.SharedAssistantList | chatbot.py:84-118 | with two tool uses in the first response, the second follow-up call receives both assistant entries as the same two-block list |
| ToolCatalog.CatalogMatchesTable | chatbot.py:13-54 | the catalog's names are exactly the dispatch table's keys, `search_papers` and `extract_info`, each named once |
| ToolCatalog.MappingToolFunction | chatbot.py:51-54 | the dispatch table has exactly the keys `search_papers` and `extract_info`, mapped to the two tool functions |
| ToolCatalog.Join | chatbot.py:63 | joining no items gives the empty text, one item gives that item, and the result starts with the first item |
| ToolCatalog.ExecuteTool | chatbot.py:57-70 | an unknown name raises `KeyError` with that name, and only then; otherwise the normalised value the tool returned |
| ToolCatalog.Normalise | chatbot.py:59-69 | `None` gives the fixed no-results message, a list its items joined with ", ", a dict its JSON text, anything else its string |
| ToolCatalog.JoinSnoc | chatbot.py:63 | joining one more item appends the separator and that item |
| ToolCatalog.JoinLength | chatbot.py:63 | the joined text is as long as the items together plus one separator between each two |
| ToolCatalog.NormaliseList | chatbot.py:62-63 | a one-item list gives that item alone; a longer list gives text as long as its items plus two characters per separator |
| ToolCatalog.ExecuteAdvertised | chatbot.py:13-58 | a tool call succeeds if and only if the model named a tool the catalog advertises |
| Chatbot.ProcessQuery | chatbot.py:73-122 | `process_query` runs the shared loop with the fixed catalog and `execute_tool`; every model call is offered that catalog and receives a well-formed history |
| Chatbot.AnsweredToolsAdvertised | chatbot.py:95-114 | every tool use the model is shown an answer for is one of the advertised tools |
| Chatbot.OneToolThenText | chatbot.py:86-122 | one tool call followed by a single text block ends with three history entries, two model calls, and the answer printed but not appended |
| Chatbot.UnknownToolRaises | chatbot.py:58 | a first response using an unlisted tool raises `KeyError` with that name, without any follow-up call |
| Chatbot.StopOnLatestLength | chatbot.py:86-122 | a text block after a tool use in the first response joins the shared assistant entry; it clears the flag because the latest response has one block, and that response's tool use is never run |
| Chatbot.ReturnsAfterPrinting | chatbot.py:86-122 | whenever `process_query` returns, it has printed at least one text |
| McpChatbot.Project | mcp_chatbot.py:110-114 | the projection has one entry per listed tool, in order, copying `name`, `description` and `inputSchema` |
| McpChatbot.ProjectAppend | mcp_chatbot.py:110-114 | projecting a concatenation is the concatenation of the projections |
| McpChatbot.ProjectNames | mcp_chatbot.py:108-114 | the projection advertises exactly the names the server listed |
| McpChatbot.CallTool | mcp_chatbot.py:54-61 | with no session, `AttributeError("call_tool")`, and only then; otherwise the server's content list |
| McpChatbot.McpChatbot.constructor | mcp_chatbot.py:18-23 | a new chatbot has no session and no catalog |
| McpChatbot.McpChatbot.Connect | mcp_chatbot.py:100-114 | connecting stores the session and, as the catalog, the projection of the tools it lists |
| McpChatbot.McpChatbot.ProcessQuery | mcp_chatbot.py:25-72 | `process_query` runs the shared loop with the stored catalog and session; its model calls are well formed, it prints no answer text, and when it returns the history is the query alone after one call |
| McpChatbot.Silent | mcp_chatbot.py:36-41 | the MCP loop prints no answer text, however the call ends |
| McpChatbot.UnconnectedToolUseRaises | mcp_chatbot.py:54 | before a connection, a tool use in the first response raises `AttributeError` with no follow-up call |
| McpChatbot.ForwardsResults | mcp_chatbot.py:45-64 | every follow-up call's history ends with an assistant entry ending with a tool use, then a result with that id and the server's content for that call |
| McpChatbot.ConnectedCatalog | mcp_chatbot.py:65-70 | after connecting, every model call is offered the projection of the listed tools |
| McpChatbot.DoneOnlyImmediately | mcp_chatbot.py:33-72 | the MCP loop returns if and only if the first response is a single text block, and then the history is the query alone after one model call |
| McpChatbot.OneToolThenTextRaises | mcp_chatbot.py:71 | one tool call whose follow-up is one text block raises `AttributeError("type")` after two model calls |
| McpChatbot.IntendedOneToolThenText | mcp_chatbot.py:71-72 | with the test read on the first block, the same run returns with the query, the assistant entry and the server's result as history, after two calls, printing no answer text |
| McpChatbot.IntendedDoneAfterOneCall | mcp_chatbot.py:71-72 | with the test read on the first block, the loop returns after one model call if and only if the first response is a single text block |

## Left out

- The model service is an oracle: a function from history and catalog to a response. Model names, token limits and the client object are left out.
- The tool functions behind `mapping_tool_function` and the server behind `call_tool` are oracles. `research_server.py` and `stdio_server.py` are not part of this model.
- The tool oracles are stateless: two identical calls in one query return the same content. In the program, `extract_info` reads the files `search_papers` writes, so its answer can change within a query. No property here compares two calls.
- `json.dumps(result, indent=2)` stays uninterpreted as `JsonText(dict)`. Its formatting is not modelled.
- The `**tool_args` call can raise `TypeError` when the model's arguments do not fit the function. This is not modelled: a tool function is total on its arguments.
- The `int`, `float` and other Python values a tool can return are collapsed into `OtherValue(str)`, carrying the text `str(result)`. A list is taken to hold strings.
- Printing of the "Calling tool" lines and of the connected tool names is left out. Only the answer texts of the direct chatbot are recorded, as `shown`.
- The `chat_loop` functions are interactive input and error printing, and are left out. So are `main` and `connect_to_server_and_run`'s subprocess, transport and `initialize` steps. `Connect` keeps only the two field updates.
- `call_tool` at mcp_chatbot.py:54 is called without `await`. The model treats it as returning the server's result, as if it were awaited. The coroutine semantics are not modelled. As written, `.content` would be looked up on a coroutine object.
- The history entries of the MCP chatbot carry the server's content list as `Parts`, without the MCP content-item types.
- The loop is bounded by `fuel`, a limit on passes. A call that never returns shows up as `OutOfFuel` for every bound; `TurnLoopFacts.SpinsForever` states this.
- Concurrency and the event loop are left out. The calls are modelled as sequential.
- The model service never fails. The exceptions `client.messages.create` can raise (chatbot.py:77 and 115, mcp_chatbot.py:27 and 65) are not modelled.
- Tool arguments are `map<string, string>` (messages.dfy). The schema's integer argument `max_results` is carried as text.
- A response holds only text and tool-use blocks. Other content block types cannot be expressed. Both loops would skip them, but such blocks still count in the length tests (chatbot.py:92 and 120, mcp_chatbot.py:40 and 71), so they can keep the loop from stopping.

## Findings

| source | as written | input that shows it | evidently intended | confidence | as-written member | corrected member |
|---|---|---|---|---|---|---|
| mcp_chatbot.py:71 | `response.content.type` reads `.type` on the list of blocks, which raises `AttributeError` whenever the follow-up response has one block | a first response holding one tool use, whose follow-up response is one text block (the failure shows only once the `call_tool` at mcp_chatbot.py:54 is awaited; as written, `result.content` at line 61 fails first) | `response.content[0].type == "text"`, as chatbot.py:120 does it, stopping the loop after the answer | high; not executed | McpChatbot.OneToolThenTextRaises | McpChatbot.IntendedOneToolThenText |
