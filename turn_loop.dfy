/** The tool-augmented turn loop shared by both chatbots (`process_query`).

    The history starts as the user's query and the model is called once. Then
    each pass of the `while` loop starts a fresh `assistant_content` list and walks
    the blocks of the response that was current when the pass began:
    - a text block is appended to `assistant_content` (and echoed by the direct
      chatbot); if the LATEST response has exactly one block the loop flag is
      cleared;
    - a tool-use block is appended to `assistant_content`, that list object is
      pushed onto the history as an assistant entry, the tool is executed, a user
      entry with one `tool_result` is pushed, the model is called again with the
      whole history, and the variant's post-tool stop test is applied to the new
      response.
    Every assistant entry pushed during one pass is the same list object, so a
    block appended later in the pass shows up in all of them.

    Two descriptions are given: a value-level one (`Run`, with the shared list
    represented by `AssistantSlot` placeholders that all render as the current
    buffer) and the heap-level method `ProcessQuery`, in which history entries hold
    references to `AssistantContent` objects, proved to compute `Run`.
 */
module TurnLoop {
  import opened Messages

  /** `Direct` is chatbot.py. `Mcp` is mcp_chatbot.py as written, with `call_tool`'s
      result taken as awaited. `McpIntended` is that, with its post-tool test also
      read on the first block, as the direct chatbot does it. */
  datatype Variant = Direct | Mcp | McpIntended

  /** Only the direct chatbot prints the text blocks it walks over. */
  predicate Echoes(v: Variant) {
    v.Direct?
  }

  /** The test made right after a follow-up response arrives. The direct chatbot
      stops on a response that is a single text block. The MCP chatbot reads
      `.type` on the block list itself: when the length test lets the evaluation
      get that far, Python raises `AttributeError`, so this test never stops the loop. */
  function AfterTool(v: Variant, r: Response): (res: Result<bool, Error>)
    ensures !v.Mcp? ==> res.Ok? && (res.value <==> |r| == 1 && r[0].Text?)
    ensures v.Mcp? ==> (res.Err? <==> |r| == 1) && (res.Ok? ==> !res.value)
    ensures res.Err? ==> res.error == AttributeError("type")
  {
    match v
    case Direct => Ok(|r| == 1 && r[0].Text?)
    case McpIntended => Ok(|r| == 1 && r[0].Text?)
    case Mcp => if |r| == 1 then Err(AttributeError("type")) else Ok(false)
  }

  /** The text printed right after a follow-up response arrives. */
  function Announce(v: Variant, r: Response): seq<string> {
    if v.Direct? && |r| == 1 && r[0].Text? then [r[0].text] else []
  }

  /** The collaborators of one call of `process_query`: the variant, the tool
      catalog the model is given, the model service and the tool executor. */
  datatype Env<!C> = Env(
    variant: Variant,
    catalog: C,
    model: (seq<Msg>, C) -> Response,
    exec: (string, Args) -> Result<Content, Error>)

  // ---------------------------------------------------------------------------
  // Value-level description of the loop
  // ---------------------------------------------------------------------------

  /** An entry pushed during the current pass: the shared assistant list, or a tool result. */
  datatype Slot = AssistantSlot | ResultSlot(id: string, content: Content)

  function RenderSlot(s: Slot, buf: seq<Block>): Msg {
    match s
    case AssistantSlot => Assistant(buf)
    case ResultSlot(id, c) => ToolResult(id, c)
  }

  function Render(slots: seq<Slot>, buf: seq<Block>): seq<Msg> {
    seq(|slots|, i requires 0 <= i < |slots| => RenderSlot(slots[i], buf))
  }

  /** The loop's state: the history up to the current pass (`frozen`), the entries
      pushed in this pass (`slots`), `assistant_content` (`buf`), the latest
      `response`, the loop flag, the texts printed, the model calls made, and the
      exception raised, if any. */
  datatype St<C> = St(
    frozen: seq<Msg>,
    slots: seq<Slot>,
    buf: seq<Block>,
    response: Response,
    going: bool,
    shown: seq<string>,
    requests: seq<Request<C>>,
    fault: Option<Error>)

  /** `messages` as it is at this point. */
  function History<C>(st: St<C>): seq<Msg> {
    st.frozen + Render(st.slots, st.buf)
  }

  /** The start of a pass: `assistant_content = []`. */
  function Begin<C>(st: St<C>): St<C> {
    st.(frozen := History(st), slots := [], buf := [])
  }

  /** `assistant_content.append(b)` followed by pushing that list onto the history. */
  function PushAssistant<C>(st: St<C>, b: Block): St<C> {
    st.(buf := st.buf + [b], slots := st.slots + [AssistantSlot])
  }

  /** Pushing the user entry holding one `tool_result`. */
  function PushResult<C>(st: St<C>, id: string, c: Content): St<C> {
    st.(slots := st.slots + [ResultSlot(id, c)])
  }

  /** Calling the model with the whole current history and the catalog. */
  function CallModel<C>(env: Env<C>, st: St<C>): (r: St<C>)
    ensures History(r) == History(st)
    ensures r.requests == st.requests + [Request(History(st), env.catalog)]
    ensures r.response == env.model(History(st), env.catalog)
    ensures r.going == st.going && r.shown == st.shown && r.fault == st.fault
  {
    var h := History(st);
    st.(requests := st.requests + [Request(h, env.catalog)], response := env.model(h, env.catalog))
  }

  /** The post-tool stop test on the response just received. */
  function PostTool<C>(env: Env<C>, st: St<C>): (r: St<C>)
    ensures History(r) == History(st) && r.requests == st.requests && r.response == st.response
    ensures AfterTool(env.variant, st.response).Err? ==> r.fault == Some(AfterTool(env.variant, st.response).error)
    ensures AfterTool(env.variant, st.response).Ok? ==>
      r.fault == st.fault && r.going == (st.going && !AfterTool(env.variant, st.response).value) &&
      r.shown == st.shown + Announce(env.variant, st.response)
  {
    match AfterTool(env.variant, st.response)
    case Err(e) => st.(fault := Some(e))
    case Ok(stop) => st.(shown := st.shown + Announce(env.variant, st.response), going := st.going && !stop)
  }

  /** One iteration of the inner `for` loop, on block `b`. */
  function Step<C>(env: Env<C>, st: St<C>, b: Block): (r: St<C>)
    ensures b.Text? ==> r.requests == st.requests && r.fault == st.fault && r.buf == st.buf + [b]
    ensures b.Text? ==> r.going == (st.going && |st.response| != 1)
    ensures b.ToolUse? && env.exec(b.name, b.input).Err? ==>
      r.requests == st.requests && r.fault == Some(env.exec(b.name, b.input).error)
    ensures b.ToolUse? && env.exec(b.name, b.input).Ok? ==> |r.requests| == |st.requests| + 1
  {
    match b
    case Text(t) =>
      st.(buf := st.buf + [b],
          shown := if Echoes(env.variant) then st.shown + [t] else st.shown,
          going := st.going && |st.response| != 1)
    case ToolUse(id, name, input) =>
      var pushed := PushAssistant(st, b);
      match env.exec(name, input)
      case Err(e) => pushed.(fault := Some(e))
      case Ok(c) => PostTool(env, CallModel(env, PushResult(pushed, id, c)))
  }

  /** The inner loop from block `i` on; an exception ends it. */
  function PassFrom<C>(env: Env<C>, blocks: Response, i: nat, st: St<C>): (r: St<C>)
    requires i <= |blocks|
    ensures st.fault.Some? ==> r == st
    ensures |st.requests| <= |r.requests|
    decreases |blocks| - i
  {
    if i == |blocks| || st.fault.Some? then st
    else PassFrom(env, blocks, i + 1, Step(env, st, blocks[i]))
  }

  /** Model calls are only ever added, by a pass over `blocks`. */
  lemma {:induction false} PassFromKeepsRequests<C>(env: Env<C>, blocks: Response, i: nat, st: St<C>)
    requires i <= |blocks|
    ensures IsPrefix(st.requests, PassFrom(env, blocks, i, st).requests)
    decreases |blocks| - i
  {
    if i < |blocks| && st.fault.None? {
      var st' := Step(env, st, blocks[i]);
      assert st'.requests[..|st.requests|] == st.requests;
      PassFromKeepsRequests(env, blocks, i + 1, st');
      var rs := PassFrom(env, blocks, i + 1, st').requests;
      assert rs[..|st.requests|] == rs[..|st'.requests|][..|st.requests|];
    }
  }

  /** One pass of the `while` loop, over the response current at its start. */
  function RunPass<C>(env: Env<C>, st: St<C>): (r: St<C>)
    ensures |st.requests| <= |r.requests|
  {
    PassFrom(env, st.response, 0, Begin(st))
  }

  datatype Status = Done(history: seq<Msg>) | Raised(error: Error) | OutOfFuel

  /** How a call of `process_query` ends, the model calls it made and the texts it printed. */
  datatype Outcome<C> = Outcome(status: Status, requests: seq<Request<C>>, shown: seq<string>)

  /** The `while` loop, allowed at most `fuel` more passes. */
  function Loop<C>(env: Env<C>, st: St<C>, fuel: nat): (r: Outcome<C>)
    ensures st.fault.Some? ==> r == Outcome(Raised(st.fault.value), st.requests, st.shown)
    ensures st.fault.None? && !st.going ==> r == Outcome(Done(History(st)), st.requests, st.shown)
    ensures fuel == 0 ==> r.requests == st.requests
    decreases fuel
  {
    if st.fault.Some? then Outcome(Raised(st.fault.value), st.requests, st.shown)
    else if !st.going then Outcome(Done(History(st)), st.requests, st.shown)
    else if fuel == 0 then Outcome(OutOfFuel, st.requests, st.shown)
    else
      Loop(env, RunPass(env, st), fuel - 1)
  }

  /** Model calls are only ever added. */
  lemma {:induction false} LoopKeepsRequests<C>(env: Env<C>, st: St<C>, fuel: nat)
    ensures IsPrefix(st.requests, Loop(env, st, fuel).requests)
    decreases fuel
  {
    if st.fault.None? && st.going && fuel > 0 {
      var st' := RunPass(env, st);
      PassFromKeepsRequests(env, st.response, 0, Begin(st));
      LoopKeepsRequests(env, st', fuel - 1);
      var rs := Loop(env, st', fuel - 1).requests;
      assert rs[..|st.requests|] == rs[..|st'.requests|][..|st.requests|];
    }
  }

  /** The state before the loop: one user message and the first model call. */
  function Start<C>(env: Env<C>, query: string): (st: St<C>)
    ensures History(st) == [UserQuery(query)] && st.slots == [] && st.buf == []
    ensures st.requests == [Request([UserQuery(query)], env.catalog)]
    ensures st.response == env.model([UserQuery(query)], env.catalog)
    ensures st.going && st.shown == [] && st.fault.None?
  {
    var h := [UserQuery(query)];
    St(h, [], [], env.model(h, env.catalog), true, [], [Request(h, env.catalog)], None)
  }

  /** `process_query(query)` with at most `fuel` passes of the `while` loop. */
  function Run<C>(env: Env<C>, query: string, fuel: nat): (out: Outcome<C>)
    ensures |out.requests| >= 1 && out.requests[0] == Request([UserQuery(query)], env.catalog)
  {
    var st := Start(env, query);
    LoopKeepsRequests(env, st, fuel);
    var out := Loop(env, st, fuel);
    assert out.requests[0] == out.requests[..1][0];
    out
  }

  // ---------------------------------------------------------------------------
  // Heap-level description: `assistant_content` is a list object shared by reference
  // ---------------------------------------------------------------------------

  /** The `assistant_content` list. */
  class AssistantContent {
    var blocks: seq<Block>

    constructor ()
      ensures blocks == []
    {
      blocks := [];
    }

    method Append(b: Block)
      modifies this
      ensures blocks == old(blocks) + [b]
    {
      blocks := blocks + [b];
    }
  }

  /** An element of `messages`; an assistant entry refers to a list object. */
  datatype Entry =
    | UserEntry(query: string)
    | AssistantEntry(buffer: AssistantContent)
    | ResultEntry(toolUseId: string, result: Content)

  function View(e: Entry): (m: Msg)
    reads if e.AssistantEntry? then {e.buffer} else {}
  {
    match e
    case UserEntry(q) => UserQuery(q)
    case AssistantEntry(buffer) => Assistant(buffer.blocks)
    case ResultEntry(id, c) => ToolResult(id, c)
  }

  function Buffers(es: seq<Entry>): set<AssistantContent> {
    set e | e in es && e.AssistantEntry? :: e.buffer
  }

  /** The value of `messages` at this moment: what a model call receives. */
  function Snapshot(es: seq<Entry>): (h: seq<Msg>)
    reads Buffers(es)
    ensures |h| == |es|
    ensures forall k :: 0 <= k < |es| ==> h[k] == View(es[k])
    decreases |es|
  {
    if es == [] then [] else Snapshot(es[..|es| - 1]) + [View(es[|es| - 1])]
  }

  ghost function EntryFor(s: Slot, current: AssistantContent): Entry {
    match s
    case AssistantSlot => AssistantEntry(current)
    case ResultSlot(id, c) => ResultEntry(id, c)
  }

  /** The entries from `start` on are the current pass's, whose assistant entries
      all refer to `current`; the earlier ones show the frozen history. */
  ghost predicate Represents<C>(messages: seq<Entry>, start: nat, current: AssistantContent, st: St<C>)
    reads Buffers(messages), current
  {
    start == |st.frozen| &&
    |messages| == start + |st.slots| &&
    (forall k :: 0 <= k < start ==> View(messages[k]) == st.frozen[k]) &&
    (forall k :: 0 <= k < start && messages[k].AssistantEntry? ==> messages[k].buffer != current) &&
    (forall j :: 0 <= j < |st.slots| ==> messages[start + j] == EntryFor(st.slots[j], current)) &&
    current.blocks == st.buf
  }

  lemma SnapshotRepresents<C>(messages: seq<Entry>, start: nat, current: AssistantContent, st: St<C>)
    requires Represents(messages, start, current, st)
    ensures Snapshot(messages) == History(st)
  {
    var h, g := Snapshot(messages), History(st);
    forall k | 0 <= k < |messages|
      ensures h[k] == g[k]
    {
      if k >= start {
        var j := k - start;
        assert messages[start + j] == EntryFor(st.slots[j], current);
      }
    }
  }

  /** Pushing the entry of one more slot keeps the correspondence. */
  lemma RepresentsPush<C>(messages: seq<Entry>, start: nat, current: AssistantContent, st: St<C>, s: Slot)
    requires Represents(messages, start, current, st)
    ensures Represents(messages + [EntryFor(s, current)], start, current, st.(slots := st.slots + [s]))
  {
    var ms, st' := messages + [EntryFor(s, current)], st.(slots := st.slots + [s]);
    forall j | 0 <= j < |st'.slots|
      ensures ms[start + j] == EntryFor(st'.slots[j], current)
    {
      if j < |st.slots| {
        assert ms[start + j] == messages[start + j];
      }
    }
  }

  /** `assistant_content.append(b)`: only the current pass's entries change. */
  method AppendBlock<C>(messages: seq<Entry>, start: nat, current: AssistantContent, ghost st: St<C>, b: Block)
    requires Represents(messages, start, current, st)
    modifies current
    ensures Represents(messages, start, current, st.(buf := st.buf + [b]))
  {
    current.Append(b);
  }

  /** One iteration of the inner `for` loop over the heap-level state. */
  method HandleBlock<C>(env: Env<C>, b: Block, messages: seq<Entry>, start: nat, current: AssistantContent,
                        response: Response, going: bool, shown: seq<string>, requests: seq<Request<C>>, ghost st: St<C>)
    returns (messages': seq<Entry>, response': Response, going': bool, shown': seq<string>,
             requests': seq<Request<C>>, fault: Option<Error>, ghost st': St<C>)
    requires Represents(messages, start, current, st) && st.fault == None
    requires response == st.response && going == st.going && shown == st.shown && requests == st.requests
    modifies current
    ensures st' == Step(env, st, b) && st'.fault == fault
    ensures fault.None? ==> Represents(messages', start, current, st')
    ensures response' == st'.response && going' == st'.going && shown' == st'.shown && requests' == st'.requests
  {
    match b
    case Text(t) =>
      messages', response', requests', fault := messages, response, requests, None;
      shown' := if Echoes(env.variant) then shown + [t] else shown;
      AppendBlock(messages, start, current, st, b);
      going' := if |response| == 1 then false else going;
      st' := st.(buf := st.buf + [b], shown := shown', going := going');
    case ToolUse(id, name, input) =>
      messages', response', going', shown', requests', fault, st' :=
        HandleToolUse(env, b, messages, start, current, response, going, shown, requests, st);
  }

  /** The `tool_use` branch: push the shared list, run the tool, push its result,
      then call the model again. */
  method HandleToolUse<C>(env: Env<C>, b: Block, messages: seq<Entry>, start: nat, current: AssistantContent,
                          response: Response, going: bool, shown: seq<string>, requests: seq<Request<C>>, ghost st: St<C>)
    returns (messages': seq<Entry>, response': Response, going': bool, shown': seq<string>,
             requests': seq<Request<C>>, fault: Option<Error>, ghost st': St<C>)
    requires b.ToolUse?
    requires Represents(messages, start, current, st) && st.fault == None
    requires response == st.response && going == st.going && shown == st.shown && requests == st.requests
    modifies current
    ensures st' == Step(env, st, b) && st'.fault == fault
    ensures fault.None? ==> Represents(messages', start, current, st')
    ensures response' == st'.response && going' == st'.going && shown' == st'.shown && requests' == st'.requests
  {
    AppendBlock(messages, start, current, st, b);
    RepresentsPush(messages, start, current, st.(buf := st.buf + [b]), AssistantSlot);
    messages' := messages + [AssistantEntry(current)];
    ghost var pushed := PushAssistant(st, b);
    var res := env.exec(b.name, b.input);
    if res.Err? {
      response', going', shown', requests' := response, going, shown, requests;
      fault := Some(res.error);
      st' := pushed.(fault := fault);
      return;
    }
    RepresentsPush(messages', start, current, pushed, ResultSlot(b.id, res.value));
    messages' := messages' + [ResultEntry(b.id, res.value)];
    response', going', shown', requests', fault, st' :=
      FollowUp(env, messages', start, current, going, shown, requests, PushResult(pushed, b.id, res.value));
  }

  /** Calling the model with the whole history, then the post-tool stop test. */
  method FollowUp<C>(env: Env<C>, messages: seq<Entry>, start: nat, current: AssistantContent,
                     going: bool, shown: seq<string>, requests: seq<Request<C>>, ghost st: St<C>)
    returns (response': Response, going': bool, shown': seq<string>,
             requests': seq<Request<C>>, fault: Option<Error>, ghost st': St<C>)
    requires Represents(messages, start, current, st) && st.fault == None
    requires going == st.going && shown == st.shown && requests == st.requests
    ensures st' == PostTool(env, CallModel(env, st)) && st'.fault == fault
    ensures fault.None? ==> Represents(messages, start, current, st')
    ensures response' == st'.response && going' == st'.going && shown' == st'.shown && requests' == st'.requests
  {
    SnapshotRepresents(messages, start, current, st);
    var h := Snapshot(messages);
    requests' := requests + [Request(h, env.catalog)];
    response' := env.model(h, env.catalog);
    ghost var called := CallModel(env, st);
    var after := AfterTool(env.variant, response');
    if after.Err? {
      going', shown' := going, shown;
      fault := Some(after.error);
      st' := called.(fault := fault);
      return;
    }
    fault := None;
    shown' := shown + Announce(env.variant, response');
    going' := going && !after.value;
    st' := called.(shown := shown', going := going');
  }

  /** One pass of the `while` loop: a fresh `assistant_content`, then the inner
      `for` loop over the blocks of the response current at the start of the pass. */
  method Pass<C>(env: Env<C>, messages: seq<Entry>, response: Response, going: bool,
                 shown: seq<string>, requests: seq<Request<C>>, ghost st: St<C>)
    returns (messages': seq<Entry>, response': Response, going': bool, shown': seq<string>,
             requests': seq<Request<C>>, fault: Option<Error>, ghost st': St<C>)
    requires Snapshot(messages) == History(st) && st.fault == None
    requires response == st.response && going == st.going && shown == st.shown && requests == st.requests
    ensures st' == RunPass(env, st) && st'.fault == fault
    ensures fault.None? ==> Snapshot(messages') == History(st')
    ensures response' == st'.response && going' == st'.going && shown' == st'.shown && requests' == st'.requests
  {
    messages', response', going', shown', requests', fault := messages, response, going, shown, requests, None;
    st' := Begin(st);
    var current := new AssistantContent();
    var start := |messages|;
    var blocks := response;
    for i := 0 to |blocks|
      invariant Represents(messages', start, current, st')
      invariant st'.fault == None && fault == None
      invariant response' == st'.response && going' == st'.going
      invariant shown' == st'.shown && requests' == st'.requests
      invariant PassFrom(env, blocks, i, st') == RunPass(env, st)
    {
      messages', response', going', shown', requests', fault, st' :=
        HandleBlock(env, blocks[i], messages', start, current, response', going', shown', requests', st');
      if fault.Some? {
        return;
      }
    }
    SnapshotRepresents(messages', start, current, st');
  }

  /** `process_query(query)`, allowed at most `fuel` passes of the `while` loop. */
  method ProcessQuery<C>(env: Env<C>, query: string, fuel: nat) returns (out: Outcome<C>)
    ensures out == Run(env, query, fuel)
  {
    var messages := [UserEntry(query)];
    var first := Snapshot(messages);
    assert first == [UserQuery(query)];
    var requests := [Request(first, env.catalog)];
    var response := env.model(first, env.catalog);
    var shown: seq<string> := [];
    var going := true;
    ghost var st := Start(env, query);
    var passes := 0;
    while going && passes < fuel
      invariant passes <= fuel
      invariant Snapshot(messages) == History(st)
      invariant st.fault == None
      invariant response == st.response && going == st.going
      invariant shown == st.shown && requests == st.requests
      invariant Loop(env, st, fuel - passes) == Run(env, query, fuel)
    {
      ghost var entry := st;
      var fault;
      messages, response, going, shown, requests, fault, st := Pass(env, messages, response, going, shown, requests, st);
      assert Loop(env, entry, fuel - passes) == Loop(env, st, fuel - passes - 1);
      if fault.Some? {
        out := Outcome(Raised(fault.value), requests, shown);
        return;
      }
      passes := passes + 1;
    }
    var status := if going then OutOfFuel else Done(Snapshot(messages));
    out := Outcome(status, requests, shown);
  }
}
