/** The direct chatbot: `process_query` with the static `tools` catalog and
    `execute_tool` as the tool executor. It prints every text block it walks over
    and the text of a single-text follow-up response, and stops after a tool call
    when the follow-up response is a single text block.
 */
module Chatbot {
  import opened Messages
  import opened ToolCatalog
  import opened TurnLoop
  import TurnLoopFacts

  /** The model service: a response for a history and a tool catalog. */
  type Model = (seq<Msg>, seq<ToolSpec>) -> Response

  /** The collaborators of the direct chatbot's `process_query`. */
  function DirectEnv(model: Model, searchPapers: ToolFn, extractInfo: ToolFn): Env<seq<ToolSpec>> {
    Env(Direct, Tools, model,
        (name: string, args: Args) => ExecuteTool(MappingToolFunction(searchPapers, extractInfo), name, args))
  }

  /** `process_query(client, query)`, allowed at most `fuel` passes of its loop. */
  method ProcessQuery(model: Model, searchPapers: ToolFn, extractInfo: ToolFn, query: string, fuel: nat)
    returns (out: Outcome<seq<ToolSpec>>)
    ensures out == Run(DirectEnv(model, searchPapers, extractInfo), query, fuel)
    ensures TurnLoopFacts.RequestsOk(DirectEnv(model, searchPapers, extractInfo), query, out.requests)
    ensures forall k :: 0 <= k < |out.requests| ==> out.requests[k].catalog == Tools
  {
    var env := DirectEnv(model, searchPapers, extractInfo);
    out := TurnLoop.ProcessQuery(env, query, fuel);
    TurnLoopFacts.RequestsCorrelated(env, query, fuel);
  }

  /** The `k`-th follow-up call's history ends with a tool use of an advertised tool. */
  ghost predicate AnswersAdvertised(h: seq<Msg>, k: nat) {
    1 <= k && 2 * k < |h| && h[2 * k - 1].Assistant? && |h[2 * k - 1].blocks| > 0 &&
    Last(h[2 * k - 1].blocks).ToolUse? && Last(h[2 * k - 1].blocks).name in CatalogNames(Tools)
  }

  /** Every tool use the model is shown an answer for names an advertised tool. */
  lemma AnsweredToolsAdvertised(model: Model, searchPapers: ToolFn, extractInfo: ToolFn, query: string, fuel: nat)
    ensures var out := Run(DirectEnv(model, searchPapers, extractInfo), query, fuel);
      forall k :: 1 <= k < |out.requests| ==> AnswersAdvertised(out.requests[k].history, k)
  {
    var env := DirectEnv(model, searchPapers, extractInfo);
    var out := Run(env, query, fuel);
    TurnLoopFacts.RequestsCorrelated(env, query, fuel);
    forall k | 1 <= k < |out.requests|
      ensures AnswersAdvertised(out.requests[k].history, k)
    {
      assert TurnLoopFacts.WellFormed(env, query, out.requests[k], k);
      var u := Last(out.requests[k].history[2 * k - 1].blocks);
      ExecuteAdvertised(searchPapers, extractInfo, u.name, u.input);
    }
  }

  /** One tool call whose follow-up is a single text block: the history holds
      exactly the query, the assistant entry and the tool result; the answer text
      is printed but not appended. */
  lemma OneToolThenText(model: Model, searchPapers: ToolFn, extractInfo: ToolFn, query: string, fuel: nat,
                        id: string, name: string, input: Args, t: string)
    requires fuel >= 1
    requires name in CatalogNames(Tools)
    requires model([UserQuery(query)], Tools) == [ToolUse(id, name, input)]
    requires var c := Normalise(MappingToolFunction(searchPapers, extractInfo)[name](input));
      model([UserQuery(query), Assistant([ToolUse(id, name, input)]), ToolResult(id, c)], Tools) == [Text(t)]
    ensures var c := Normalise(MappingToolFunction(searchPapers, extractInfo)[name](input));
      var h1 := [UserQuery(query), Assistant([ToolUse(id, name, input)]), ToolResult(id, c)];
      Run(DirectEnv(model, searchPapers, extractInfo), query, fuel) ==
        Outcome(Done(h1), [Request([UserQuery(query)], Tools), Request(h1, Tools)], [t])
  {
    var env := DirectEnv(model, searchPapers, extractInfo);
    var b := ToolUse(id, name, input);
    var c := Normalise(MappingToolFunction(searchPapers, extractInfo)[name](input));
    ExecuteAdvertised(searchPapers, extractInfo, name, input);
    assert env.exec(name, input) == Ok(c);
    var st := Start(env, query);
    TurnLoopFacts.FirstToolCall(env, query, b, c);
    TurnLoopFacts.ShortPass(env, st);
    TurnLoopFacts.RunFirstPass(env, query, fuel);
    var e := RunPass(env, st);
    assert !e.going && e.fault.None? && e.shown == [t];
  }

  /** A tool name outside the table raises `KeyError` before any follow-up call. */
  lemma UnknownToolRaises(model: Model, searchPapers: ToolFn, extractInfo: ToolFn, query: string, fuel: nat,
                          id: string, name: string, input: Args)
    requires fuel >= 1
    requires name !in CatalogNames(Tools)
    requires model([UserQuery(query)], Tools) == [ToolUse(id, name, input)]
    ensures var out := Run(DirectEnv(model, searchPapers, extractInfo), query, fuel);
      out.status == Raised(KeyError(name)) && out.requests == [Request([UserQuery(query)], Tools)]
  {
    var env := DirectEnv(model, searchPapers, extractInfo);
    ExecuteAdvertised(searchPapers, extractInfo, name, input);
    assert env.exec(name, input) == Err(KeyError(name));
    var st := Start(env, query);
    TurnLoopFacts.ShortPass(env, st);
    TurnLoopFacts.RunFirstPass(env, query, fuel);
  }

  /** The text branch's stop test reads the length of the LATEST response: after a
      tool call whose follow-up is a single tool-use block, a text block later in
      the old response clears the flag, that text joins the shared assistant entry
      after the model was called, and the follow-up's tool use is never executed. */
  lemma StopOnLatestLength(model: Model, searchPapers: ToolFn, extractInfo: ToolFn, query: string, fuel: nat,
                           a: Block, t: string, u: Block)
    requires fuel >= 1 && a.ToolUse? && a.name in CatalogNames(Tools) && u.ToolUse?
    requires model([UserQuery(query)], Tools) == [a, Text(t)]
    requires var c := Normalise(MappingToolFunction(searchPapers, extractInfo)[a.name](a.input));
      model([UserQuery(query), Assistant([a]), ToolResult(a.id, c)], Tools) == [u]
    ensures var c := Normalise(MappingToolFunction(searchPapers, extractInfo)[a.name](a.input));
      var out := Run(DirectEnv(model, searchPapers, extractInfo), query, fuel);
      out.status == Done([UserQuery(query), Assistant([a, Text(t)]), ToolResult(a.id, c)]) &&
      out.requests == [Request([UserQuery(query)], Tools),
                       Request([UserQuery(query), Assistant([a]), ToolResult(a.id, c)], Tools)] &&
      out.shown == [t]
  {
    var env := DirectEnv(model, searchPapers, extractInfo);
    var c := Normalise(MappingToolFunction(searchPapers, extractInfo)[a.name](a.input));
    ExecuteAdvertised(searchPapers, extractInfo, a.name, a.input);
    assert env.exec(a.name, a.input) == Ok(c);
    var st := Start(env, query);
    TurnLoopFacts.FirstToolCall(env, query, a, c);
    TurnLoopFacts.ShortPass(env, st);
    TurnLoopFacts.RunFirstPass(env, query, fuel);
    var e1 := Step(env, Begin(st), a);
    assert e1.going && e1.fault.None? && e1.response == [u];
    assert e1.frozen == [UserQuery(query)] && e1.slots == [AssistantSlot, ResultSlot(a.id, c)] && e1.buf == [a];
    var e2 := Step(env, e1, Text(t));
    assert RunPass(env, st) == e2;
    assert !e2.going && e2.fault.None?;
    var rendered := Render(e2.slots, e2.buf);
    assert e2.buf == [a, Text(t)] && e2.slots == e1.slots;
    assert rendered == [Assistant([a, Text(t)]), ToolResult(a.id, c)] by {
      assert |rendered| == 2 && rendered[0] == Assistant([a, Text(t)]) && rendered[1] == ToolResult(a.id, c);
    }
    assert History(e2) == [UserQuery(query), Assistant([a, Text(t)]), ToolResult(a.id, c)];
  }

  // ---------------------------------------------------------------------------
  // The call only returns after printing an answer
  // ---------------------------------------------------------------------------

  ghost predicate AnswerShown<C>(st: St<C>) {
    st.fault.None? && !st.going ==> |st.shown| >= 1
  }

  lemma {:induction false} PassFromShows<C>(env: Env<C>, blocks: Response, i: nat, st: St<C>)
    requires env.variant.Direct? && i <= |blocks| && AnswerShown(st)
    ensures AnswerShown(PassFrom(env, blocks, i, st))
    decreases |blocks| - i
  {
    if i < |blocks| && st.fault.None? {
      var b := blocks[i];
      var st' := Step(env, st, b);
      assert AnswerShown(st') by {
        if b.ToolUse? {
          match env.exec(b.name, b.input)
          case Err(e) =>
          case Ok(c) =>
            var called := CallModel(env, PushResult(PushAssistant(st, b), b.id, c));
            assert st' == PostTool(env, called);
        }
      }
      PassFromShows(env, blocks, i + 1, st');
    }
  }

  lemma {:induction false} LoopShows<C>(env: Env<C>, st: St<C>, fuel: nat)
    requires env.variant.Direct? && AnswerShown(st)
    ensures Loop(env, st, fuel).status.Done? ==> |Loop(env, st, fuel).shown| >= 1
    decreases fuel
  {
    if st.fault.None? && st.going && fuel > 0 {
      PassFromShows(env, st.response, 0, Begin(st));
      LoopShows(env, RunPass(env, st), fuel - 1);
    }
  }

  /** Whenever `process_query` returns, it has printed at least one answer text. */
  lemma ReturnsAfterPrinting(model: Model, searchPapers: ToolFn, extractInfo: ToolFn, query: string, fuel: nat)
    ensures var out := Run(DirectEnv(model, searchPapers, extractInfo), query, fuel);
      out.status.Done? ==> |out.shown| >= 1
  {
    var env := DirectEnv(model, searchPapers, extractInfo);
    LoopShows(env, Start(env, query), fuel);
  }
}
