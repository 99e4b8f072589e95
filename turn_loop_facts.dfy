/** Properties of the shared turn loop that hold for both chatbots:
    - every model call receives the whole history so far and the same catalog;
      the k-th follow-up call's history has 2k+1 entries and ends with an
      assistant entry whose last block is a tool use and a tool result with that
      block's id and the executed tool's content;
    - later calls and the final history keep every earlier tool result in place,
      and keep each earlier assistant entry as an extension of what was sent;
    - a pass over a response without tool-use blocks leaves the history, the
      model calls and the response unchanged, so a response without tool use
      whose length is not 1 makes the loop spin forever.
 */
module TurnLoopFacts {
  import opened Messages
  import opened TurnLoop

  // ---------------------------------------------------------------------------
  // Correlation of tool uses and tool results in what the model receives
  // ---------------------------------------------------------------------------

  /** `a` is an assistant entry ending with a tool use, and `t` is the tool result
      for it: same id, content as the executor returned for that call. */
  ghost predicate Answers<C>(env: Env<C>, a: Msg, t: Msg) {
    a.Assistant? && |a.blocks| > 0 && Last(a.blocks).ToolUse? &&
    t.ToolResult? && t.toolUseId == Last(a.blocks).id &&
    env.exec(Last(a.blocks).name, Last(a.blocks).input) == Ok(t.content)
  }

  /** The model call number `k` (0 is the first): the catalog, the whole history
      (2k+1 entries, the query first), and, after a tool call, the answered tool use last. */
  ghost predicate WellFormed<C>(env: Env<C>, query: string, r: Request<C>, k: nat) {
    r.catalog == env.catalog &&
    |r.history| == 2 * k + 1 &&
    r.history[0] == UserQuery(query) &&
    (k > 0 ==> Answers(env, r.history[2 * k - 1], r.history[2 * k]))
  }

  /** Entry `m'` is entry `m`, or both are assistant entries and `m'` has more blocks. */
  ghost predicate Extends(m: Msg, m': Msg) {
    m == m' || (m.Assistant? && m'.Assistant? && IsPrefix(m.blocks, m'.blocks))
  }

  /** History `h'` continues history `h`. */
  ghost predicate Grows(h: seq<Msg>, h': seq<Msg>) {
    |h| <= |h'| && forall p :: 0 <= p < |h| ==> Extends(h[p], h'[p])
  }

  /** History `h` still holds the tool exchange of the `j`-th follow-up call `r`:
      the same tool result, after an extension of the same assistant entry. */
  ghost predicate Keeps<C>(h: seq<Msg>, r: Request<C>, j: nat) {
    0 < j && 2 * j < |h| && 2 * j < |r.history| &&
    h[2 * j] == r.history[2 * j] && h[2 * j].ToolResult? &&
    Extends(r.history[2 * j - 1], h[2 * j - 1])
  }

  ghost predicate RequestsOk<C>(env: Env<C>, query: string, reqs: seq<Request<C>>) {
    |reqs| >= 1 &&
    (forall k :: 0 <= k < |reqs| ==> WellFormed(env, query, reqs[k], k)) &&
    (forall j, k :: 1 <= j <= k < |reqs| ==> Keeps(reqs[k].history, reqs[j], j))
  }

  /** What the final history looks like relative to the model calls made. */
  ghost predicate FinalOk<C>(query: string, h: seq<Msg>, reqs: seq<Request<C>>) {
    |reqs| >= 1 &&
    |h| == 2 * |reqs| - 1 && h[0] == UserQuery(query) &&
    forall j :: 1 <= j < |reqs| ==> Keeps(h, reqs[j], j)
  }

  /** The invariant of the loop's state. */
  ghost predicate Inv<C>(env: Env<C>, query: string, st: St<C>) {
    RequestsOk(env, query, st.requests) &&
    (st.fault.None? ==>
      |st.frozen| % 2 == 1 &&
      FinalOk(query, History(st), st.requests) &&
      (forall j :: 0 <= j < |st.slots| ==> (st.slots[j].AssistantSlot? <==> j % 2 == 0)) &&
      st.response == env.model(Last(st.requests).history, env.catalog))
  }

  lemma ExtendsTrans(a: Msg, b: Msg, c: Msg)
    requires Extends(a, b) && Extends(b, c)
    ensures Extends(a, c)
  {
    if a != b && b != c {
      assert c.blocks[..|a.blocks|] == c.blocks[..|b.blocks|][..|a.blocks|];
    }
  }

  lemma GrowsKeeps<C>(h: seq<Msg>, h': seq<Msg>, r: Request<C>, j: nat)
    requires Grows(h, h') && Keeps(h, r, j)
    ensures Keeps(h', r, j)
  {
    assert Extends(h[2 * j], h'[2 * j]);
    assert Extends(h[2 * j - 1], h'[2 * j - 1]);
    ExtendsTrans(r.history[2 * j - 1], h[2 * j - 1], h'[2 * j - 1]);
  }

  lemma GrowsAll<C>(h: seq<Msg>, h': seq<Msg>, reqs: seq<Request<C>>, n: nat)
    requires Grows(h, h') && n <= |reqs|
    requires forall j :: 1 <= j < n ==> Keeps(h, reqs[j], j)
    ensures forall j :: 1 <= j < n ==> Keeps(h', reqs[j], j)
  {
    forall j | 1 <= j < n
      ensures Keeps(h', reqs[j], j)
    {
      GrowsKeeps(h, h', reqs[j], j);
    }
  }

  /** Appending a block to `assistant_content` only extends the history. */
  lemma BufferGrows<C>(st: St<C>, b: Block)
    ensures Grows(History(st), History(st.(buf := st.buf + [b])))
  {
    var h, h' := History(st), History(st.(buf := st.buf + [b]));
    forall p | 0 <= p < |h|
      ensures Extends(h[p], h'[p])
    {
      if p >= |st.frozen| {
        var s := st.slots[p - |st.frozen|];
        if s.AssistantSlot? {
          assert h'[p].blocks[..|st.buf|] == st.buf;
        }
      }
    }
  }

  lemma StartInv<C>(env: Env<C>, query: string)
    ensures Inv(env, query, Start(env, query))
  {
  }

  lemma BeginInv<C>(env: Env<C>, query: string, st: St<C>)
    requires Inv(env, query, st) && st.fault.None?
    ensures Inv(env, query, Begin(st))
  {
    assert History(Begin(st)) == History(st);
  }

  lemma TextStepInv<C>(env: Env<C>, query: string, st: St<C>, b: Block)
    requires Inv(env, query, st) && st.fault.None? && b.Text?
    ensures Inv(env, query, Step(env, st, b))
  {
    var st' := Step(env, st, b);
    BufferGrows(st, b);
    assert History(st') == History(st.(buf := st.buf + [b]));
    GrowsAll(History(st), History(st'), st.requests, |st.requests|);
  }

  /** The history after a tool call: it continues the history before it and adds
      the shared assistant entry, ending with the tool use, and the tool result. */
  lemma ToolCallHistory<C>(env: Env<C>, query: string, st: St<C>, b: Block, c: Content)
    requires Inv(env, query, st) && st.fault.None? && b.ToolUse?
    ensures var n, h1 := |st.requests|, History(PushResult(PushAssistant(st, b), b.id, c));
      Grows(History(st), h1) && |h1| == 2 * n + 1 && h1[0] == UserQuery(query) &&
      h1[2 * n - 1] == Assistant(st.buf + [b]) && h1[2 * n] == ToolResult(b.id, c)
  {
    var h := History(st);
    var s1 := PushResult(PushAssistant(st, b), b.id, c);
    var h1 := History(s1);
    var f := |st.frozen|;
    var hb := History(st.(buf := st.buf + [b]));
    BufferGrows(st, b);
    assert Grows(hb, h1) by {
      forall p | 0 <= p < |hb|
        ensures Extends(hb[p], h1[p])
      {
        if p >= f {
          assert s1.slots[p - f] == st.slots[p - f];
        }
      }
    }
    forall p | 0 <= p < |h|
      ensures Extends(h[p], h1[p])
    {
      ExtendsTrans(h[p], hb[p], h1[p]);
    }
  }

  /** Recording one more well-formed model call keeps the record well formed. */
  lemma RequestsAppend<C>(env: Env<C>, query: string, reqs: seq<Request<C>>, r: Request<C>)
    requires RequestsOk(env, query, reqs)
    requires WellFormed(env, query, r, |reqs|) && Keeps(r.history, r, |reqs|)
    requires forall j :: 1 <= j < |reqs| ==> Keeps(r.history, reqs[j], j)
    ensures RequestsOk(env, query, reqs + [r])
  {
    var n, rs := |reqs|, reqs + [r];
    forall k | 0 <= k < n + 1
      ensures WellFormed(env, query, rs[k], k)
    {
      if k < n {
        assert rs[k] == reqs[k];
      }
    }
    forall j, k | 1 <= j <= k < n + 1
      ensures Keeps(rs[k].history, rs[j], j)
    {
      if k < n {
        assert rs[k] == reqs[k] && rs[j] == reqs[j];
      } else if j < n {
        assert rs[j] == reqs[j];
      }
    }
  }

  /** The model call after a tool call keeps the record of calls well formed,
      and the history it is given keeps every earlier exchange. */
  lemma ToolCallRequests<C>(env: Env<C>, query: string, st: St<C>, b: Block, c: Content)
    requires Inv(env, query, st) && st.fault.None? && b.ToolUse?
    requires env.exec(b.name, b.input) == Ok(c)
    ensures var h1 := History(PushResult(PushAssistant(st, b), b.id, c));
      var rs := st.requests + [Request(h1, env.catalog)];
      RequestsOk(env, query, rs) && FinalOk(query, h1, rs)
  {
    var n := |st.requests|;
    var h1 := History(PushResult(PushAssistant(st, b), b.id, c));
    var r := Request(h1, env.catalog);
    var rs := st.requests + [r];
    ToolCallHistory(env, query, st, b, c);
    GrowsAll(History(st), h1, st.requests, n);
    assert Keeps(h1, r, n);
    RequestsAppend(env, query, st.requests, r);
    forall j | 1 <= j < n + 1
      ensures Keeps(h1, rs[j], j)
    {
      if j < n {
        assert rs[j] == st.requests[j];
      }
    }
  }

  /** The two entries a successful tool call pushes, and the call that follows. */
  lemma ToolCallInv<C>(env: Env<C>, query: string, st: St<C>, b: Block, c: Content)
    requires Inv(env, query, st) && st.fault.None? && b.ToolUse?
    requires env.exec(b.name, b.input) == Ok(c)
    ensures Inv(env, query, CallModel(env, PushResult(PushAssistant(st, b), b.id, c)))
  {
    var s1 := PushResult(PushAssistant(st, b), b.id, c);
    var s2 := CallModel(env, s1);
    ToolCallRequests(env, query, st, b, c);
    assert History(s2) == History(s1);
    assert |s2.frozen| % 2 == 1;
    assert forall j :: 0 <= j < |s2.slots| ==> (s2.slots[j].AssistantSlot? <==> j % 2 == 0);
  }

  lemma ToolStepInv<C>(env: Env<C>, query: string, st: St<C>, b: Block)
    requires Inv(env, query, st) && st.fault.None? && b.ToolUse?
    ensures Inv(env, query, Step(env, st, b))
  {
    match env.exec(b.name, b.input)
    case Err(e) =>
    case Ok(c) =>
      ToolCallInv(env, query, st, b, c);
  }

  lemma StepInv<C>(env: Env<C>, query: string, st: St<C>, b: Block)
    requires Inv(env, query, st) && st.fault.None?
    ensures Inv(env, query, Step(env, st, b))
  {
    if b.Text? {
      TextStepInv(env, query, st, b);
    } else {
      ToolStepInv(env, query, st, b);
    }
  }

  lemma {:induction false} PassFromInv<C>(env: Env<C>, query: string, blocks: Response, i: nat, st: St<C>)
    requires i <= |blocks| && Inv(env, query, st)
    ensures Inv(env, query, PassFrom(env, blocks, i, st))
    decreases |blocks| - i
  {
    if i < |blocks| && st.fault.None? {
      var st' := Step(env, st, blocks[i]);
      StepInv(env, query, st, blocks[i]);
      PassFromInv(env, query, blocks, i + 1, st');
      assert PassFrom(env, blocks, i, st) == PassFrom(env, blocks, i + 1, st');
    }
  }

  lemma PassInv<C>(env: Env<C>, query: string, st: St<C>)
    requires Inv(env, query, st) && st.fault.None?
    ensures Inv(env, query, RunPass(env, st))
  {
    BeginInv(env, query, st);
    PassFromInv(env, query, st.response, 0, Begin(st));
  }

  /** What holds of a finished call of `process_query`. */
  ghost predicate OutcomeOk<C>(env: Env<C>, query: string, out: Outcome<C>) {
    RequestsOk(env, query, out.requests) &&
    (out.status.Done? ==> FinalOk(query, out.status.history, out.requests))
  }

  /** The exits of the `while` loop keep the invariant's promises. */
  lemma ExitOk<C>(env: Env<C>, query: string, st: St<C>, fuel: nat)
    requires Inv(env, query, st) && (st.fault.Some? || !st.going || fuel == 0)
    ensures OutcomeOk(env, query, Loop(env, st, fuel))
  {
  }

  lemma {:induction false} LoopInv<C>(env: Env<C>, query: string, st: St<C>, fuel: nat)
    requires Inv(env, query, st)
    ensures OutcomeOk(env, query, Loop(env, st, fuel))
    decreases fuel
  {
    if st.fault.None? && st.going && fuel > 0 {
      var st' := RunPass(env, st);
      PassInv(env, query, st);
      LoopInv(env, query, st', fuel - 1);
      assert Loop(env, st, fuel) == Loop(env, st', fuel - 1);
    } else {
      ExitOk(env, query, st, fuel);
    }
  }

  /** Round-trip correlation: each model call gets the whole history so far and
      the catalog; the k-th follow-up ends with the k-th tool use and its result;
      later calls and the final history keep every earlier exchange. */
  lemma RequestsCorrelated<C>(env: Env<C>, query: string, fuel: nat)
    ensures var out := Run(env, query, fuel);
      RequestsOk(env, query, out.requests) &&
      out.requests[0] == Request([UserQuery(query)], env.catalog) &&
      (out.status.Done? ==> FinalOk(query, out.status.history, out.requests))
  {
    StartInv(env, query);
    LoopInv(env, query, Start(env, query), fuel);
  }

  // ---------------------------------------------------------------------------
  // Passes without tool use
  // ---------------------------------------------------------------------------

  /** The texts of the text blocks of a response, in order. */
  function Texts(r: Response): seq<string>
    decreases |r|
  {
    if r == [] then []
    else if r[0].Text? then [r[0].text] + Texts(r[1..])
    else Texts(r[1..])
  }

  lemma {:induction false} NoToolPassFrom<C>(env: Env<C>, blocks: Response, i: nat, st: St<C>)
    requires i <= |blocks| && !HasToolUse(blocks) && st.fault.None? && st.slots == []
    ensures var e := PassFrom(env, blocks, i, st);
      e.fault.None? && e.slots == [] && e.frozen == st.frozen &&
      e.requests == st.requests && e.response == st.response &&
      e.going == (st.going && (i == |blocks| || |st.response| != 1)) &&
      e.shown == st.shown + (if Echoes(env.variant) then Texts(blocks[i..]) else [])
    decreases |blocks| - i
  {
    if i < |blocks| {
      var st' := Step(env, st, blocks[i]);
      assert blocks[i].Text?;
      NoToolPassFrom(env, blocks, i + 1, st');
      assert blocks[i..][1..] == blocks[i + 1..];
    } else {
      assert blocks[i..] == [];
    }
  }

  /** A pass over a response with no tool-use block leaves the history, the model
      calls and the response as they were; only a response of exactly one block
      clears the loop flag, and the direct chatbot prints every text again. */
  lemma NoToolPass<C>(env: Env<C>, st: St<C>)
    requires st.fault.None? && !HasToolUse(st.response)
    ensures var e := RunPass(env, st);
      e.fault.None? && History(e) == History(st) &&
      e.requests == st.requests && e.response == st.response &&
      e.going == (st.going && |st.response| != 1) &&
      e.shown == st.shown + (if Echoes(env.variant) then Texts(st.response) else [])
  {
    NoToolPassFrom(env, st.response, 0, Begin(st));
    assert History(Begin(st)) == History(st);
    assert st.response[0..] == st.response;
  }

  /** Such a response whose length is not 1 makes the loop run forever:
      whatever the bound on passes, it is exhausted. */
  lemma {:induction false} SpinsForever<C>(env: Env<C>, st: St<C>, fuel: nat)
    requires st.fault.None? && st.going && !HasToolUse(st.response) && |st.response| != 1
    ensures Loop(env, st, fuel).status == OutOfFuel
    ensures Loop(env, st, fuel).requests == st.requests
    decreases fuel
  {
    if fuel > 0 {
      NoToolPass(env, st);
      SpinsForever(env, RunPass(env, st), fuel - 1);
    }
  }

  /** When the first response has no tool use and is not a single block, the
      call never returns and the model is called only once. */
  lemma FirstResponseSpins<C>(env: Env<C>, query: string, fuel: nat)
    requires var r0 := env.model([UserQuery(query)], env.catalog); !HasToolUse(r0) && |r0| != 1
    ensures Run(env, query, fuel).status == OutOfFuel
    ensures Run(env, query, fuel).requests == [Request([UserQuery(query)], env.catalog)]
  {
    SpinsForever(env, Start(env, query), fuel);
  }

  /** A first response that is one text block ends the call after one pass with
      the query as the whole history and a single model call. */
  lemma ImmediateAnswer<C>(env: Env<C>, query: string, fuel: nat, t: string)
    requires env.model([UserQuery(query)], env.catalog) == [Text(t)] && fuel >= 1
    ensures Run(env, query, fuel) ==
      Outcome(Done([UserQuery(query)]), [Request([UserQuery(query)], env.catalog)],
              if Echoes(env.variant) then [t] else [])
  {
    var st := Start(env, query);
    assert !HasToolUse(st.response);
    NoToolPass(env, st);
    var e := RunPass(env, st);
    assert Texts([Text(t)]) == [t];
    assert !e.going && e.fault.None?;
    assert Run(env, query, fuel) == Loop(env, e, fuel - 1);
    assert History(e) == History(st) == [UserQuery(query)];
    assert e.shown == if Echoes(env.variant) then [t] else [];
  }

  /** A pass that reaches a tool-use block either raises or calls the model again. */
  lemma {:induction false} PassFromCallsTool<C>(env: Env<C>, blocks: Response, i: nat, j: nat, st: St<C>)
    requires i <= j < |blocks| && blocks[j].ToolUse? && st.fault.None?
    ensures var e := PassFrom(env, blocks, i, st);
      e.fault.Some? || |e.requests| > |st.requests|
    decreases j - i
  {
    var st' := Step(env, st, blocks[i]);
    assert |st'.requests| >= |st.requests|;
    if st'.fault.None? {
      if i == j {
        assert |st'.requests| == |st.requests| + 1;
      } else {
        PassFromCallsTool(env, blocks, i + 1, j, st');
      }
    }
  }

  /** The call returns after the first model call exactly when the first response
      is a single text block (and the loop is allowed one pass). */
  lemma DoneAfterOneCall<C>(env: Env<C>, query: string, fuel: nat)
    ensures var out, r0 := Run(env, query, fuel), env.model([UserQuery(query)], env.catalog);
      (out.status.Done? && |out.requests| == 1) <==> (fuel >= 1 && |r0| == 1 && r0[0].Text?)
  {
    var out, r0 := Run(env, query, fuel), env.model([UserQuery(query)], env.catalog);
    var st := Start(env, query);
    if fuel >= 1 && |r0| == 1 && r0[0].Text? {
      ImmediateAnswer(env, query, fuel, r0[0].text);
      assert r0 == [Text(r0[0].text)];
    } else if out.status.Done? && |out.requests| == 1 {
      assert fuel >= 1;
      if HasToolUse(r0) {
        var j :| 0 <= j < |r0| && r0[j].ToolUse?;
        var e := RunPass(env, st);
        assert out == Loop(env, e, fuel - 1);
        PassFromCallsTool(env, r0, 0, j, Begin(st));
        LoopKeepsRequests(env, e, fuel - 1);
        assert false;
      } else if |r0| != 1 {
        SpinsForever(env, st, fuel);
        assert false;
      }
    }
  }

  // ---------------------------------------------------------------------------
  // Unfolding facts for concrete scenarios
  // ---------------------------------------------------------------------------

  lemma RunFirstPass<C>(env: Env<C>, query: string, fuel: nat)
    requires fuel >= 1
    ensures Run(env, query, fuel) == Loop(env, RunPass(env, Start(env, query)), fuel - 1)
  {
  }

  /** A pass over a response of one or two blocks. */
  lemma ShortPass<C>(env: Env<C>, st: St<C>)
    requires 1 <= |st.response| <= 2 && st.fault.None?
    ensures var s1 := Step(env, Begin(st), st.response[0]);
      RunPass(env, st) == if |st.response| == 1 || s1.fault.Some? then s1 else Step(env, s1, st.response[1])
  {
    var r := st.response;
    var s1 := Step(env, Begin(st), r[0]);
    assert RunPass(env, st) == PassFrom(env, r, 1, s1);
    if |r| == 2 && s1.fault.None? {
      assert PassFrom(env, r, 1, s1) == PassFrom(env, r, 2, Step(env, s1, r[1]));
    }
  }

  /** A tool use that is the first block of the first response: the history becomes
      the query, the assistant entry holding just that tool use, and its result, and
      the model is called with it. */
  lemma FirstToolCall<C>(env: Env<C>, query: string, b: Block, c: Content)
    requires b.ToolUse? && env.exec(b.name, b.input) == Ok(c)
    ensures var st, h1 := Begin(Start(env, query)), [UserQuery(query), Assistant([b]), ToolResult(b.id, c)];
      var called := CallModel(env, PushResult(PushAssistant(st, b), b.id, c));
      Step(env, st, b) == PostTool(env, called) &&
      History(called) == h1 && called.frozen == [UserQuery(query)] &&
      called.slots == [AssistantSlot, ResultSlot(b.id, c)] && called.buf == [b] &&
      called.requests == [Request([UserQuery(query)], env.catalog), Request(h1, env.catalog)] &&
      called.response == env.model(h1, env.catalog) &&
      called.going && called.fault.None? && called.shown == []
  {
    var st := Begin(Start(env, query));
    assert st.frozen == [UserQuery(query)];
    var s1 := PushResult(PushAssistant(st, b), b.id, c);
    var rendered := Render(s1.slots, s1.buf);
    assert rendered == [Assistant([b]), ToolResult(b.id, c)] by {
      assert |rendered| == 2 && rendered[0] == Assistant([b]) && rendered[1] == ToolResult(b.id, c);
    }
  }

  /** A second tool call in the same pass appends to the shared list, so the
      model is shown the list twice. */
  lemma SecondToolCall<C>(env: Env<C>, s1: St<C>, query: string, a: Block, ca: Content, b: Block, cb: Content)
    requires a.ToolUse? && b.ToolUse? && env.exec(b.name, b.input) == Ok(cb) && s1.fault.None?
    requires s1.frozen == [UserQuery(query)] && s1.slots == [AssistantSlot, ResultSlot(a.id, ca)] && s1.buf == [a]
    ensures Step(env, s1, b).requests == s1.requests +
      [Request([UserQuery(query), Assistant([a, b]), ToolResult(a.id, ca), Assistant([a, b]), ToolResult(b.id, cb)],
               env.catalog)]
  {
    var p := PushResult(PushAssistant(s1, b), b.id, cb);
    var h2 := [UserQuery(query), Assistant([a, b]), ToolResult(a.id, ca), Assistant([a, b]), ToolResult(b.id, cb)];
    assert p.frozen == [UserQuery(query)] && p.buf == [a, b];
    assert p.slots == [AssistantSlot, ResultSlot(a.id, ca), AssistantSlot, ResultSlot(b.id, cb)];
    var rendered := Render(p.slots, p.buf);
    assert rendered == h2[1..] by {
      assert |rendered| == 4;
      assert rendered[0] == h2[1] && rendered[1] == h2[2] && rendered[2] == h2[3] && rendered[3] == h2[4];
    }
    assert History(p) == h2;
  }

  /** Two tool uses in one response: the second follow-up call sees both tool uses
      in BOTH assistant entries, since they are one shared list, so the first
      assistant entry carries a tool use that the entry after it does not answer. */
  lemma SharedAssistantList<C>(env: Env<C>, query: string, fuel: nat, a: Block, b: Block, ca: Content, cb: Content)
    requires fuel >= 1 && a.ToolUse? && b.ToolUse?
    requires env.model([UserQuery(query)], env.catalog) == [a, b]
    requires env.exec(a.name, a.input) == Ok(ca) && env.exec(b.name, b.input) == Ok(cb)
    requires var h1 := [UserQuery(query), Assistant([a]), ToolResult(a.id, ca)];
      AfterTool(env.variant, env.model(h1, env.catalog)).Ok?
    ensures var out := Run(env, query, fuel);
      |out.requests| >= 3 &&
      out.requests[1].history == [UserQuery(query), Assistant([a]), ToolResult(a.id, ca)] &&
      out.requests[2].history ==
        [UserQuery(query), Assistant([a, b]), ToolResult(a.id, ca), Assistant([a, b]), ToolResult(b.id, cb)]
  {
    var st := Start(env, query);
    FirstToolCall(env, query, a, ca);
    var called := CallModel(env, PushResult(PushAssistant(Begin(st), a), a.id, ca));
    var s1 := Step(env, Begin(st), a);
    assert s1.fault.None? && s1.requests == called.requests;
    assert s1.frozen == called.frozen && s1.slots == called.slots && s1.buf == called.buf;
    SecondToolCall(env, s1, query, a, ca, b, cb);
    var s2 := Step(env, s1, b);
    ShortPass(env, st);
    assert RunPass(env, st) == s2;
    RunFirstPass(env, query, fuel);
    LoopKeepsRequests(env, s2, fuel - 1);
    var rs := Run(env, query, fuel).requests;
    assert rs[1] == rs[..|s2.requests|][1] && rs[2] == rs[..|s2.requests|][2];
  }
}
