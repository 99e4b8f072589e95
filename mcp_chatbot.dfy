/** The MCP chatbot: the same turn loop, with the tool catalog and the tool
    executor taken from a session with an MCP server. `connect_to_server_and_run`
    stores the session and the projection of the tools the server lists;
    `process_query` then runs the loop with those.
 */
module McpChatbot {
  import opened Messages
  import opened ToolCatalog
  import opened TurnLoop
  import TurnLoopFacts

  // ---------------------------------------------------------------------------
  // The catalog projection
  // ---------------------------------------------------------------------------

  /** One tool as the server's `list_tools` reply describes it. */
  datatype ListedTool = ListedTool(
    name: string,
    title: Option<string>,
    description: Option<string>,
    inputSchema: Schema,
    outputSchema: Option<Schema>)

  /** One entry of `available_tools`: `{name, description, inputSchema}`. */
  datatype AvailableTool = AvailableTool(name: string, description: Option<string>, inputSchema: Schema)

  function Advertise(t: ListedTool): AvailableTool {
    AvailableTool(t.name, t.description, t.inputSchema)
  }

  /** The comprehension building `available_tools` from the listed tools. */
  function Project(listed: seq<ListedTool>): (r: seq<AvailableTool>)
    ensures |r| == |listed|
    ensures forall i :: 0 <= i < |listed| ==>
      r[i].name == listed[i].name && r[i].description == listed[i].description &&
      r[i].inputSchema == listed[i].inputSchema
    decreases |listed|
  {
    if listed == [] then [] else [Advertise(listed[0])] + Project(listed[1..])
  }

  /** Projecting a concatenation projects each part. */
  lemma {:induction false} ProjectAppend(xs: seq<ListedTool>, ys: seq<ListedTool>)
    ensures Project(xs + ys) == Project(xs) + Project(ys)
    decreases |xs|
  {
    if xs != [] {
      assert (xs + ys)[1..] == xs[1..] + ys;
      ProjectAppend(xs[1..], ys);
    }
  }

  /** The catalog advertises exactly the names the server listed. */
  lemma ProjectNames(listed: seq<ListedTool>)
    ensures (set t | t in Project(listed) :: t.name) == (set t | t in listed :: t.name)
  {
    var r := Project(listed);
    var before, after := set t | t in listed :: t.name, set t | t in r :: t.name;
    forall n | n in before
      ensures n in after
    {
      var i :| 0 <= i < |listed| && listed[i].name == n;
      assert r[i] in r;
    }
    forall n | n in after
      ensures n in before
    {
      var i :| 0 <= i < |r| && r[i].name == n;
      assert listed[i] in listed;
    }
  }

  // ---------------------------------------------------------------------------
  // The session and the chatbot object
  // ---------------------------------------------------------------------------

  /** A connected `ClientSession`: what `call_tool` would deliver once awaited
      (the content list of the result), and what `list_tools` returns. */
  datatype Session = Session(callTool: (string, Args) -> seq<string>, tools: seq<ListedTool>)

  type Catalog = Option<seq<AvailableTool>>

  /** The model service, given the history and `available_tools` (`None` before a connection). */
  type McpModel = (seq<Msg>, Catalog) -> Response

  /** `self.session.call_tool(name, args).content`: with no session the attribute
      lookup on `None` fails; with one, the server's content list comes back. */
  function CallTool(session: Option<Session>, name: string, args: Args): (r: Result<Content, Error>)
    ensures r.Err? <==> session.None?
    ensures r.Err? ==> r.error == AttributeError("call_tool")
    ensures r.Ok? ==> r.value == Parts(session.value.callTool(name, args))
  {
    if session.None? then Err(AttributeError("call_tool")) else Ok(Parts(session.value.callTool(name, args)))
  }

  /** The collaborators of `process_query`. */
  function McpEnv(model: McpModel, session: Option<Session>, tools: Catalog): Env<Catalog> {
    Env(Mcp, tools, model, (name: string, args: Args) => CallTool(session, name, args))
  }

  /** The same with the post-tool test of line 71 read on the first block. */
  function IntendedEnv(model: McpModel, session: Option<Session>, tools: Catalog): Env<Catalog> {
    Env(McpIntended, tools, model, (name: string, args: Args) => CallTool(session, name, args))
  }

  /** `MCP_Chatbot`: the session and the catalog, both `None` until connected. */
  class McpChatbot {
    var session: Option<Session>
    var availableTools: Catalog

    constructor ()
      ensures session == None && availableTools == None
    {
      session := None;
      availableTools := None;
    }

    /** The part of `connect_to_server_and_run` that sets the object's state: the
        session, and the projection of the tools it lists. */
    method Connect(s: Session)
      modifies this
      ensures session == Some(s)
      ensures availableTools == Some(Project(s.tools))
    {
      session := Some(s);
      availableTools := Some(Project(s.tools));
    }

    /** `process_query(query)`, allowed at most `fuel` passes of its loop. */
    method ProcessQuery(model: McpModel, query: string, fuel: nat) returns (out: Outcome<Catalog>)
      ensures out == Run(McpEnv(model, session, availableTools), query, fuel)
      ensures TurnLoopFacts.RequestsOk(McpEnv(model, session, availableTools), query, out.requests)
      ensures out.shown == []
      ensures out.status.Done? ==> out.status.history == [UserQuery(query)] && |out.requests| == 1
    {
      var env := McpEnv(model, session, availableTools);
      out := TurnLoop.ProcessQuery(env, query, fuel);
      Silent(env, query, fuel);
      TurnLoopFacts.RequestsCorrelated(env, query, fuel);
      DoneOnlyImmediately(env, query, fuel);
    }
  }

  // ---------------------------------------------------------------------------
  // No answer text is printed
  // ---------------------------------------------------------------------------

  lemma {:induction false} PassFromSilent<C>(env: Env<C>, blocks: Response, i: nat, st: St<C>)
    requires !env.variant.Direct? && i <= |blocks|
    ensures PassFrom(env, blocks, i, st).shown == st.shown
    decreases |blocks| - i
  {
    if i < |blocks| && st.fault.None? {
      var b := blocks[i];
      var st' := Step(env, st, b);
      assert st'.shown == st.shown by {
        if b.ToolUse? {
          match env.exec(b.name, b.input)
          case Err(e) =>
          case Ok(c) =>
            var called := CallModel(env, PushResult(PushAssistant(st, b), b.id, c));
            assert st' == PostTool(env, called);
        }
      }
      PassFromSilent(env, blocks, i + 1, st');
    }
  }

  lemma {:induction false} LoopSilent<C>(env: Env<C>, st: St<C>, fuel: nat)
    requires !env.variant.Direct?
    ensures Loop(env, st, fuel).shown == st.shown
    decreases fuel
  {
    if st.fault.None? && st.going && fuel > 0 {
      PassFromSilent(env, st.response, 0, Begin(st));
      LoopSilent(env, RunPass(env, st), fuel - 1);
    }
  }

  /** The MCP chatbot prints no answer text, whichever way its call ends. */
  lemma Silent<C>(env: Env<C>, query: string, fuel: nat)
    requires !env.variant.Direct?
    ensures Run(env, query, fuel).shown == []
  {
    LoopSilent(env, Start(env, query), fuel);
  }

  // ---------------------------------------------------------------------------
  // Tool calls
  // ---------------------------------------------------------------------------

  /** With an executor that always fails with `e`, a pass raises `e` exactly when a
      tool-use block remains, and makes no model call. */
  lemma {:induction false} FailingPassFrom<C>(env: Env<C>, blocks: Response, i: nat, st: St<C>, e: Error)
    requires i <= |blocks| && st.fault.None?
    requires forall n, a :: env.exec(n, a) == Err(e)
    ensures var s := PassFrom(env, blocks, i, st);
      s.requests == st.requests &&
      (s.fault.Some? <==> exists j :: i <= j < |blocks| && blocks[j].ToolUse?) &&
      (s.fault.Some? ==> s.fault.value == e)
    decreases |blocks| - i
  {
    if i < |blocks| {
      var st' := Step(env, st, blocks[i]);
      if blocks[i].ToolUse? {
        assert env.exec(blocks[i].name, blocks[i].input) == Err(e);
        assert st'.fault == Some(e) && st'.requests == st.requests;
      } else {
        FailingPassFrom(env, blocks, i + 1, st', e);
        assert (exists j :: i <= j < |blocks| && blocks[j].ToolUse?) <==>
               (exists j :: i + 1 <= j < |blocks| && blocks[j].ToolUse?);
      }
    }
  }

  /** Before a connection, a tool use in the first response raises
      `AttributeError` without any follow-up call. */
  lemma UnconnectedToolUseRaises(model: McpModel, tools: Catalog, query: string, fuel: nat)
    requires fuel >= 1 && HasToolUse(model([UserQuery(query)], tools))
    ensures var out := Run(McpEnv(model, None, tools), query, fuel);
      out.status == Raised(AttributeError("call_tool")) && out.requests == [Request([UserQuery(query)], tools)]
  {
    var env, r0 := McpEnv(model, None, tools), model([UserQuery(query)], tools);
    var st := Start(env, query);
    assert forall n, a :: env.exec(n, a) == Err(AttributeError("call_tool"));
    FailingPassFrom(env, r0, 0, Begin(st), AttributeError("call_tool"));
    TurnLoopFacts.RunFirstPass(env, query, fuel);
  }

  /** Every follow-up call is shown the server's result for the tool use just
      before it. */
  lemma ForwardsResults(model: McpModel, s: Session, tools: Catalog, query: string, fuel: nat)
    ensures var out := Run(McpEnv(model, Some(s), tools), query, fuel);
      forall k :: 1 <= k < |out.requests| ==>
        var h := out.requests[k].history;
        |h| == 2 * k + 1 && h[2 * k - 1].Assistant? && |h[2 * k - 1].blocks| > 0 &&
        Last(h[2 * k - 1].blocks).ToolUse? &&
        h[2 * k] == ToolResult(Last(h[2 * k - 1].blocks).id,
                               Parts(s.callTool(Last(h[2 * k - 1].blocks).name, Last(h[2 * k - 1].blocks).input)))
  {
    var env := McpEnv(model, Some(s), tools);
    var out := Run(env, query, fuel);
    TurnLoopFacts.RequestsCorrelated(env, query, fuel);
    forall k | 1 <= k < |out.requests|
      ensures var h := out.requests[k].history;
        |h| == 2 * k + 1 && h[2 * k - 1].Assistant? && |h[2 * k - 1].blocks| > 0 &&
        Last(h[2 * k - 1].blocks).ToolUse? &&
        h[2 * k] == ToolResult(Last(h[2 * k - 1].blocks).id,
                               Parts(s.callTool(Last(h[2 * k - 1].blocks).name, Last(h[2 * k - 1].blocks).input)))
    {
      assert TurnLoopFacts.WellFormed(env, query, out.requests[k], k);
    }
  }

  /** After connecting, the model is offered the projection of the listed tools on
      every call. */
  lemma ConnectedCatalog(model: McpModel, s: Session, query: string, fuel: nat)
    ensures var out := Run(McpEnv(model, Some(s), Some(Project(s.tools))), query, fuel);
      forall k :: 0 <= k < |out.requests| ==> out.requests[k].catalog == Some(Project(s.tools))
  {
    TurnLoopFacts.RequestsCorrelated(McpEnv(model, Some(s), Some(Project(s.tools))), query, fuel);
  }

  // ---------------------------------------------------------------------------
  // The post-tool test of line 71 never stops the loop
  // ---------------------------------------------------------------------------

  /** Inside a pass of the MCP loop: once a follow-up call was made the latest
      response never has one block (a one-block follow-up raises), so only the
      text branch of a pass over the first response, when it is a single block,
      can clear the flag. */
  ghost predicate PassOk<C>(blocks: Response, i: nat, st: St<C>) {
    st.fault.None? ==>
      (|st.requests| > 1 ==> |st.response| != 1) &&
      (|st.requests| == 1 ==> st.response == blocks) &&
      (!st.going ==> |st.requests| == 1 && i == |blocks|)
  }

  ghost predicate LoopOk<C>(st: St<C>) {
    |st.requests| >= 1 &&
    (st.fault.None? ==> (|st.requests| > 1 ==> |st.response| != 1) && (!st.going ==> |st.requests| == 1))
  }

  lemma {:induction false} PassFromOk<C>(env: Env<C>, blocks: Response, i: nat, st: St<C>)
    requires env.variant.Mcp? && i <= |blocks| && |st.requests| >= 1 && PassOk(blocks, i, st)
    ensures var e := PassFrom(env, blocks, i, st);
      |e.requests| >= 1 && PassOk(blocks, |blocks|, e)
    decreases |blocks| - i
  {
    if i < |blocks| && st.fault.None? {
      var b := blocks[i];
      var st' := Step(env, st, b);
      assert |st'.requests| >= 1 && PassOk(blocks, i + 1, st') by {
        if b.ToolUse? {
          match env.exec(b.name, b.input)
          case Err(e) =>
          case Ok(c) =>
            var called := CallModel(env, PushResult(PushAssistant(st, b), b.id, c));
            assert st' == PostTool(env, called);
            assert |called.requests| > 1;
        }
      }
      PassFromOk(env, blocks, i + 1, st');
    }
  }

  lemma {:induction false} LoopOkDone<C>(env: Env<C>, st: St<C>, fuel: nat)
    requires env.variant.Mcp? && LoopOk(st)
    ensures Loop(env, st, fuel).status.Done? ==> |Loop(env, st, fuel).requests| == 1
    decreases fuel
  {
    if st.fault.None? && st.going && fuel > 0 {
      PassFromOk(env, st.response, 0, Begin(st));
      LoopOkDone(env, RunPass(env, st), fuel - 1);
    }
  }

  /** The MCP loop returns only when its first response is a single text block;
      the history is then the query alone. */
  lemma DoneOnlyImmediately<C>(env: Env<C>, query: string, fuel: nat)
    requires env.variant.Mcp?
    ensures var out, r0 := Run(env, query, fuel), env.model([UserQuery(query)], env.catalog);
      (out.status.Done? <==> fuel >= 1 && |r0| == 1 && r0[0].Text?) &&
      (out.status.Done? ==> out.status.history == [UserQuery(query)] && |out.requests| == 1)
  {
    var out, r0 := Run(env, query, fuel), env.model([UserQuery(query)], env.catalog);
    LoopOkDone(env, Start(env, query), fuel);
    TurnLoopFacts.DoneAfterOneCall(env, query, fuel);
    if out.status.Done? {
      TurnLoopFacts.ImmediateAnswer(env, query, fuel, r0[0].text);
      assert r0 == [Text(r0[0].text)];
    }
  }

  /** One tool call whose follow-up response is one text block raises
      `AttributeError` at line 71 instead of returning the answer. */
  lemma OneToolThenTextRaises(model: McpModel, s: Session, tools: Catalog, query: string, fuel: nat,
                              b: Block, t: string)
    requires fuel >= 1 && b.ToolUse?
    requires model([UserQuery(query)], tools) == [b]
    requires model([UserQuery(query), Assistant([b]), ToolResult(b.id, Parts(s.callTool(b.name, b.input)))], tools)
             == [Text(t)]
    ensures var out := Run(McpEnv(model, Some(s), tools), query, fuel);
      out.status == Raised(AttributeError("type")) && |out.requests| == 2
  {
    var env := McpEnv(model, Some(s), tools);
    var c := Parts(s.callTool(b.name, b.input));
    assert env.exec(b.name, b.input) == Ok(c);
    TurnLoopFacts.FirstToolCall(env, query, b, c);
    TurnLoopFacts.ShortPass(env, Start(env, query));
    TurnLoopFacts.RunFirstPass(env, query, fuel);
  }

  // ---------------------------------------------------------------------------
  // The intended post-tool test
  // ---------------------------------------------------------------------------

  /** One tool call whose follow-up is a single text block returns, printing no
      answer text, with the query, the assistant entry and the server's result as
      the history. */
  lemma IntendedOneToolThenText(model: McpModel, s: Session, tools: Catalog, query: string, fuel: nat,
                                b: Block, t: string)
    requires fuel >= 1 && b.ToolUse?
    requires model([UserQuery(query)], tools) == [b]
    requires model([UserQuery(query), Assistant([b]), ToolResult(b.id, Parts(s.callTool(b.name, b.input)))], tools)
             == [Text(t)]
    ensures var h1 := [UserQuery(query), Assistant([b]), ToolResult(b.id, Parts(s.callTool(b.name, b.input)))];
      Run(IntendedEnv(model, Some(s), tools), query, fuel) ==
        Outcome(Done(h1), [Request([UserQuery(query)], tools), Request(h1, tools)], [])
  {
    var env := IntendedEnv(model, Some(s), tools);
    var c := Parts(s.callTool(b.name, b.input));
    assert env.exec(b.name, b.input) == Ok(c);
    TurnLoopFacts.FirstToolCall(env, query, b, c);
    TurnLoopFacts.ShortPass(env, Start(env, query));
    TurnLoopFacts.RunFirstPass(env, query, fuel);
  }


  /** With the intended test, the MCP loop returns after its first model call
      exactly when the first response is one text block, as the direct chatbot does. */
  lemma IntendedDoneAfterOneCall(model: McpModel, session: Option<Session>, tools: Catalog, query: string, fuel: nat)
    ensures var out, r0 := Run(IntendedEnv(model, session, tools), query, fuel), model([UserQuery(query)], tools);
      (out.status.Done? && |out.requests| == 1) <==> (fuel >= 1 && |r0| == 1 && r0[0].Text?)
  {
    TurnLoopFacts.DoneAfterOneCall(IntendedEnv(model, session, tools), query, fuel);
  }
}
