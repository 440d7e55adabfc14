/**
 * The tool-calling orchestration loop of the chatbot, as a specification on
 * values: what one call of `process_query` appends to the transcript, which
 * tools it calls with which arguments, and what it replies.
 *
 * The language model is an oracle: the finite sequence of replies its
 * successive calls return (content blocks, or an exception). The tool
 * executor is an oracle too: a function from the index of the call within
 * the query and the call itself to what `call_tool` returns or raises.
 */
module Orchestration {
  import opened Optional
  import opened Values
  import opened Strings

  type Args = map<string, Value>

  /** A connected tool provider's client session. */
  datatype SessionId = Session(server: string)

  /** A content block of a model reply. */
  datatype Block = Text(text: string) | ToolUse(id: string, name: string, input: Args)

  /** What one `messages.create` call gives: content, or an exception. */
  datatype ModelReply = Content(blocks: seq<Block>) | Raised(error: string)

  /** What one `call_tool` gives: a result's content, or an exception. */
  datatype ToolOutcome = Returned(content: Value) | Failed(error: string)

  /** Why a tool_result carries an error; `ErrorText` gives its message. */
  datatype ToolFailure = NotFound(name: string) | ExecutionFailed(name: string, detail: string)

  /** The `content` of a `tool_result` turn: the tool's content, or an
      `{"error": ...}` payload. */
  datatype ToolPayload = ToolContent(content: Value) | ToolError(failure: ToolFailure)

  /** A transcript entry: the user's query, an assistant turn, or a
      `tool_result` turn (sent with role "user"). */
  datatype Turn =
    | User(text: string)
    | Assistant(blocks: seq<Block>)
    | ToolResult(toolUseId: string, payload: ToolPayload)

  /** One invocation of `session.call_tool(name, arguments)`. */
  datatype ToolCall = ToolCall(session: SessionId, name: string, arguments: Args)

  /** What the loop reads from the bot: the name-to-session registry, the
      bound user id and the tool executor. */
  datatype Env = Env(sessions: map<string, SessionId>, userId: Option<string>, callTool: (nat, ToolCall) -> ToolOutcome)

  datatype QueryOutcome =
    | Replied(reply: string)
    | ModelFailed(error: string)   // the model call raised; the exception leaves process_query
    | OutOfReplies                 // the oracle has no further reply (the loop itself has no cap)

  datatype QueryRun = QueryRun(outcome: QueryOutcome, history: seq<Turn>, calls: seq<ToolCall>)

  datatype RoundRun = RoundRun(turns: seq<Turn>, calls: seq<ToolCall>)

  datatype Dispatched = Dispatched(payload: ToolPayload, calls: seq<ToolCall>)

  // ---------------------------------------------------------------------
  // Transcript bound
  // ---------------------------------------------------------------------

  const HistoryLimit := 10
  const KeptTurns := 9

  /** The transcript bound applied before a query: more than 10 turns are
      cut to the latest 9. Tool-use/tool-result pairing is not consulted. */
  function Truncated(h: seq<Turn>): (r: seq<Turn>)
    ensures |r| <= HistoryLimit && |r| <= |h|
    ensures r == h[|h| - |r|..]
    ensures |h| <= HistoryLimit ==> r == h
    ensures |h| > HistoryLimit ==> |r| == KeptTurns
  {
    if |h| > HistoryLimit then h[|h| - KeptTurns..] else h
  }

  /** The transcript once the query is appended: at most 11 turns, ending
      with the query, preceded by the latest turns of the old transcript. */
  function Admitted(h: seq<Turn>, query: string): (r: seq<Turn>)
    ensures 0 < |r| <= HistoryLimit + 1 && |r| - 1 <= |h|
    ensures r[|r| - 1] == User(query)
    ensures r[..|r| - 1] == h[|h| - (|r| - 1)..]
  {
    Truncated(h) + [User(query)]
  }

  /** Every tool result in `t` directly follows an assistant turn that holds
      a tool_use block with the result's id. */
  predicate ResultsPaired(t: seq<Turn>) {
    forall p :: 0 <= p < |t| && t[p].ToolResult? ==>
      p > 0 && t[p - 1].Assistant? && HoldsToolUse(t[p - 1].blocks, t[p].toolUseId)
  }

  predicate HoldsToolUse(bs: seq<Block>, id: string) {
    exists j :: 0 <= j < |bs| && bs[j].ToolUse? && bs[j].id == id
  }

  /** A well-paired transcript of 11 turns: a query, a tool round, and
      eight more queries. */
  function OrphanWitness(): (h: seq<Turn>)
    ensures |h| == HistoryLimit + 1
  {
    var q := User("q");
    [q, Assistant([ToolUse("t1", "count_documents", map[])]), ToolResult("t1", ToolContent(Int(0))), q, q, q, q, q, q, q, q]
  }

  lemma WitnessPaired()
    ensures ResultsPaired(OrphanWitness())
  {
    var h := OrphanWitness();
    assert HoldsToolUse(h[1].blocks, "t1") by {
      assert h[1].blocks[0].ToolUse?;
    }
    assert forall p :: 0 <= p < |h| && p != 2 ==> !h[p].ToolResult?;
  }

  lemma WitnessTruncatedOrphaned()
    ensures !ResultsPaired(Truncated(OrphanWitness()))
  {
    var h := OrphanWitness();
    assert Truncated(h)[0] == h[2];
  }

  /** The bound keeps a fixed number of turns and can cut a tool_use turn
      away from its tool_result: a well-paired transcript of 11 turns whose
      truncation starts with an orphan tool result. */
  lemma TruncationCanOrphanToolResult()
    ensures exists h :: |h| == 11 && ResultsPaired(h) && !ResultsPaired(Truncated(h))
  {
    WitnessPaired();
    WitnessTruncatedOrphaned();
    var h := OrphanWitness();
    assert |h| == 11 && ResultsPaired(h) && !ResultsPaired(Truncated(h));
  }

  // ---------------------------------------------------------------------
  // One round
  // ---------------------------------------------------------------------

  /** Python truthiness of the bot's `user_id` (None and "" are falsy). */
  predicate IsSet(userId: Option<string>) {
    userId.Some? && userId.value != ""
  }

  /** The arguments actually passed to `call_tool`: a copy of the model's
      input whose `user_id` is overwritten by the bot's user id when set. */
  function Arguments(input: Args, userId: Option<string>): (args: Args)
    ensures IsSet(userId) ==> "user_id" in args && args["user_id"] == Str(userId.value)
    ensures !IsSet(userId) ==> args == input
    ensures forall k :: k != "user_id" ==> (k in args <==> k in input)
    ensures forall k :: k != "user_id" && k in input ==> args[k] == input[k]
  {
    if IsSet(userId) then input["user_id" := Str(userId.value)] else input
  }

  /** The message of an error payload. */
  function ErrorText(f: ToolFailure): (msg: string)
    ensures StartsWith(msg, "Tool '" + f.name + "'")
    ensures f.ExecutionFailed? ==> |f.detail| <= |msg| && msg[|msg| - |f.detail|..] == f.detail
  {
    var head := "Tool '" + f.name + "'";
    var msg := match f
      case NotFound(_) => head + " not found. This indicates an internal configuration error."
      case ExecutionFailed(_, detail) => head + " execution failed: " + detail;
    assert msg[..|head|] == head;
    msg
  }

  /** Serving one tool_use block: an unregistered tool name gets an error
      payload without any call; a registered one is called once, and an
      exception becomes an error payload. `k` is the call's index. */
  function Dispatch(use: Block, env: Env, k: nat): (d: Dispatched)
    requires use.ToolUse?
    ensures d.calls == [] <==> use.name !in env.sessions
    ensures d.payload == ToolError(NotFound(use.name)) <==> use.name !in env.sessions
    ensures d.calls != [] ==> d.calls == [ToolCall(env.sessions[use.name], use.name, Arguments(use.input, env.userId))]
    ensures use.name in env.sessions ==>
      match env.callTool(k, ToolCall(env.sessions[use.name], use.name, Arguments(use.input, env.userId)))
      case Returned(c) => d.payload == ToolContent(c)
      case Failed(e) => d.payload == ToolError(ExecutionFailed(use.name, e))
  {
    if use.name !in env.sessions then Dispatched(ToolError(NotFound(use.name)), [])
    else
      var call := ToolCall(env.sessions[use.name], use.name, Arguments(use.input, env.userId));
      match env.callTool(k, call)
      case Returned(c) => Dispatched(ToolContent(c), [call])
      case Failed(e) => Dispatched(ToolError(ExecutionFailed(use.name, e)), [call])
  }

  /** What a round whose reply is `round` appends after serving the blocks
      `prefix` (a prefix of `round`): an assistant turn and a tool_result
      turn per tool_use block. Every assistant turn appended in a round
      shares one content list, which by the end of the round holds all of
      the round's blocks; each is therefore `Assistant(round)`. `k0` is the
      number of tool calls made earlier in the query. */
  function Round(prefix: seq<Block>, round: seq<Block>, env: Env, k0: nat): RoundRun
    decreases |prefix|
  {
    if prefix == [] then RoundRun([], [])
    else
      var prev := Round(prefix[..|prefix| - 1], round, env, k0);
      var b := prefix[|prefix| - 1];
      if b.Text? then prev
      else
        var d := Dispatch(b, env, k0 + |prev.calls|);
        RoundRun(prev.turns + [Assistant(round), ToolResult(b.id, d.payload)], prev.calls + d.calls)
  }

  /** The text of the text blocks, in order. */
  function Texts(bs: seq<Block>): seq<string>
    decreases |bs|
  {
    if bs == [] then []
    else Texts(bs[..|bs| - 1]) + (if bs[|bs| - 1].Text? then [bs[|bs| - 1].text] else [])
  }

  /** The tool_use blocks, in order. */
  function ToolUses(bs: seq<Block>): (us: seq<Block>)
    ensures forall i :: 0 <= i < |us| ==> us[i].ToolUse?
    ensures us == [] <==> forall i :: 0 <= i < |bs| ==> bs[i].Text?
    decreases |bs|
  {
    if bs == [] then []
    else
      var init := ToolUses(bs[..|bs| - 1]);
      assert forall i :: 0 <= i < |bs| - 1 ==> bs[..|bs| - 1][i] == bs[i];
      init + (if bs[|bs| - 1].ToolUse? then [bs[|bs| - 1]] else [])
  }

  /** Every block of a reply is either a text, whose text is gathered, or
      a tool_use: the gathered texts and the tool_use blocks partition it. */
  lemma {:induction false} TextsAndToolUses(bs: seq<Block>)
    ensures |Texts(bs)| + |ToolUses(bs)| == |bs|
    ensures forall j :: 0 <= j < |Texts(bs)| ==> Text(Texts(bs)[j]) in bs
    decreases |bs|
  {
    if bs != [] {
      var init := bs[..|bs| - 1];
      TextsAndToolUses(init);
      assert forall b :: b in init ==> b in bs;
    }
  }

  // ---------------------------------------------------------------------
  // The whole query
  // ---------------------------------------------------------------------

  /** The loop from some round on, given the transcript `h`, the calls made
      and the texts gathered so far, and the model's remaining replies. It
      stops at the first reply without tool_use blocks, appending that reply
      as one assistant turn and answering with all gathered texts joined by
      newlines and stripped. */
  function Run(h: seq<Turn>, calls: seq<ToolCall>, texts: seq<string>, replies: seq<ModelReply>, env: Env): QueryRun
    decreases |replies|
  {
    if replies == [] then QueryRun(OutOfReplies, h, calls)
    else match replies[0]
      case Raised(e) => QueryRun(ModelFailed(e), h, calls)
      case Content(bs) =>
        var texts' := texts + Texts(bs);
        if ToolUses(bs) == [] then QueryRun(Replied(Strip(JoinLines(texts'))), h + [Assistant(bs)], calls)
        else
          var rr := Round(bs, bs, env, |calls|);
          Run(h + rr.turns, calls + rr.calls, texts', replies[1..], env)
  }

  /** `process_query` from the transcript `h` before the query. */
  function Query(h: seq<Turn>, query: string, replies: seq<ModelReply>, env: Env): QueryRun {
    Run(Admitted(h, query), [], [], replies, env)
  }

  // ---------------------------------------------------------------------
  // Properties of a round
  // ---------------------------------------------------------------------

  /** `t` is the tool_result turn for the tool_use block `use`, whose call,
      if it makes one, is the query's `k`-th: it carries the block's id; an
      unregistered tool gets the not-found error; a registered tool's
      returned content is passed on, and an exception from `call_tool`
      becomes an execution-failed error naming the tool. */
  predicate ResultFor(t: Turn, use: Block, env: Env, k: nat)
    requires use.ToolUse?
  {
    && t.ToolResult?
    && t.toolUseId == use.id
    && (use.name !in env.sessions ==> t.payload == ToolError(NotFound(use.name)))
    && (use.name in env.sessions ==>
          match env.callTool(k, ToolCall(env.sessions[use.name], use.name, Arguments(use.input, env.userId)))
          case Returned(c) => t.payload == ToolContent(c)
          case Failed(e) => t.payload == ToolError(ExecutionFailed(use.name, e)))
  }

  /** Turns `2i` and `2i+1` of a round are the assistant turn and the
      tool_result for the round's `i`-th tool_use block, whose call index
      follows the calls of the registered tool_use blocks before it. */
  predicate AnsweredAt(turns: seq<Turn>, i: nat, round: seq<Block>, uses: seq<Block>, env: Env, k0: nat)
    requires i < |uses| && forall j :: 0 <= j < |uses| ==> uses[j].ToolUse?
  {
    && 2 * i + 1 < |turns|
    && turns[2 * i] == Assistant(round)
    && ResultFor(turns[2 * i + 1], uses[i], env, k0 + |ExpectedCalls(uses[..i], env)|)
  }

  /** A round appends exactly two turns per tool_use block, in block order:
      the assistant turn, then exactly one tool_result with that block's id
      and the payload its call outcome gives. */
  lemma {:induction false} RoundAnswersEveryToolUse(prefix: seq<Block>, round: seq<Block>, env: Env, k0: nat)
    ensures var r := Round(prefix, round, env, k0); var uses := ToolUses(prefix);
      && |r.turns| == 2 * |uses|
      && forall i :: 0 <= i < |uses| ==> AnsweredAt(r.turns, i, round, uses, env, k0)
    decreases |prefix|
  {
    if prefix != [] {
      var init := prefix[..|prefix| - 1];
      var b := prefix[|prefix| - 1];
      RoundAnswersEveryToolUse(init, round, env, k0);
      var prev := Round(init, round, env, k0);
      var r := Round(prefix, round, env, k0);
      var uses := ToolUses(prefix);
      var before := ToolUses(init);
      if b.ToolUse? {
        RoundCalls(init, round, env, k0);
        var d := Dispatch(b, env, k0 + |prev.calls|);
        var more := [Assistant(round), ToolResult(b.id, d.payload)];
        assert r.turns == prev.turns + more;
        assert uses == before + [b];
        assert ResultFor(ToolResult(b.id, d.payload), b, env, k0 + |ExpectedCalls(before, env)|);
        forall i | 0 <= i < |uses| ensures AnsweredAt(r.turns, i, round, uses, env, k0) {
          if i < |before| {
            AnsweredKept(prev.turns, more, i, round, before, b, env, k0);
          } else {
            AnsweredLast(prev.turns, round, before, b, env, k0, d.payload);
          }
        }
      } else {
        assert uses == before;
      }
    }
  }

  /** Appending turns and a tool_use block keeps an earlier answer in place. */
  lemma AnsweredKept(turns: seq<Turn>, more: seq<Turn>, i: nat, round: seq<Block>, before: seq<Block>, b: Block, env: Env, k0: nat)
    requires b.ToolUse? && forall j :: 0 <= j < |before| ==> before[j].ToolUse?
    requires i < |before| && AnsweredAt(turns, i, round, before, env, k0)
    ensures AnsweredAt(turns + more, i, round, before + [b], env, k0)
  {
    var uses := before + [b];
    assert uses[..i] == before[..i] && uses[i] == before[i];
  }

  /** The two turns appended for the last tool_use block answer it. */
  lemma AnsweredLast(turns: seq<Turn>, round: seq<Block>, before: seq<Block>, b: Block, env: Env, k0: nat, payload: ToolPayload)
    requires b.ToolUse? && forall j :: 0 <= j < |before| ==> before[j].ToolUse?
    requires |turns| == 2 * |before|
    requires ResultFor(ToolResult(b.id, payload), b, env, k0 + |ExpectedCalls(before, env)|)
    ensures AnsweredAt(turns + [Assistant(round), ToolResult(b.id, payload)], |before|, round, before + [b], env, k0)
  {
    assert (before + [b])[..|before|] == before;
  }


  /** One more block of a round: a text block changes nothing but the
      texts; a tool_use block adds its two turns and its calls. */
  lemma RoundStep(round: seq<Block>, i: nat, env: Env, k0: nat)
    requires i < |round|
    ensures var prev := Round(round[..i], round, env, k0); var b := round[i];
      Round(round[..i + 1], round, env, k0) ==
        if b.Text? then prev
        else
          var d := Dispatch(b, env, k0 + |prev.calls|);
          RoundRun(prev.turns + [Assistant(round), ToolResult(b.id, d.payload)], prev.calls + d.calls)
    ensures Texts(round[..i + 1]) == Texts(round[..i]) + (if round[i].Text? then [round[i].text] else [])
    ensures ToolUses(round[..i + 1]) == ToolUses(round[..i]) + (if round[i].ToolUse? then [round[i]] else [])
  {
    assert round[..i + 1][..i] == round[..i];
  }

  /** A round without tool_use blocks appends no turn and makes no call. */
  lemma RoundWithoutToolUse(prefix: seq<Block>, round: seq<Block>, env: Env, k0: nat)
    requires ToolUses(prefix) == []
    ensures Round(prefix, round, env, k0) == RoundRun([], [])
  {
    RoundAnswersEveryToolUse(prefix, round, env, k0);
    RoundCalls(prefix, round, env, k0);
  }

  /** The tool_result turns of a round are paired with their tool_use. */
  lemma {:induction false} RoundPaired(prefix: seq<Block>, round: seq<Block>, env: Env, k0: nat)
    requires |prefix| <= |round| && prefix == round[..|prefix|]
    ensures ResultsPaired(Round(prefix, round, env, k0).turns)
    decreases |prefix|
  {
    if prefix != [] {
      var init := prefix[..|prefix| - 1];
      var b := prefix[|prefix| - 1];
      assert init == round[..|init|];
      RoundPaired(init, round, env, k0);
      if b.ToolUse? {
        var prev := Round(init, round, env, k0);
        var d := Dispatch(b, env, k0 + |prev.calls|);
        assert round[|prefix| - 1] == b;
        PairPaired(round, b.id, d.payload);
        PairedAppend(prev.turns, [Assistant(round), ToolResult(b.id, d.payload)]);
        assert Round(prefix, round, env, k0).turns == prev.turns + [Assistant(round), ToolResult(b.id, d.payload)];
      } else {
        assert Round(prefix, round, env, k0) == Round(init, round, env, k0);
      }
    }
  }

  lemma PairPaired(round: seq<Block>, id: string, payload: ToolPayload)
    requires HoldsToolUse(round, id)
    ensures ResultsPaired([Assistant(round), ToolResult(id, payload)])
  {
    var t := [Assistant(round), ToolResult(id, payload)];
    assert t[1 - 1].blocks == round;
  }

  /** Every call a registered tool_use yields, in order: unregistered tool
      names never reach `call_tool`, and each call carries the arguments
      `Arguments` makes of its block's input. */
  function ExpectedCalls(uses: seq<Block>, env: Env): (cs: seq<ToolCall>)
    requires forall i :: 0 <= i < |uses| ==> uses[i].ToolUse?
    ensures |cs| <= |uses|
    ensures SafeCalls(cs, env)
    ensures forall i :: 0 <= i < |cs| ==>
      exists j :: 0 <= j < |uses| && uses[j].name == cs[i].name && cs[i].arguments == Arguments(uses[j].input, env.userId)
    decreases |uses|
  {
    if uses == [] then []
    else
      var u := uses[|uses| - 1];
      var init := ExpectedCalls(uses[..|uses| - 1], env);
      var cs := init + (if u.name in env.sessions then [ToolCall(env.sessions[u.name], u.name, Arguments(u.input, env.userId))] else []);
      assert forall i :: 0 <= i < |init| ==> cs[i] == init[i];
      assert forall j :: 0 <= j < |uses| - 1 ==> uses[..|uses| - 1][j] == uses[j];
      cs
  }

  /** Every call goes to the session registered under its tool's name and,
      when the bot's user id is set, carries it as `user_id`. */
  predicate SafeCalls(cs: seq<ToolCall>, env: Env) {
    forall i :: 0 <= i < |cs| ==>
      && cs[i].name in env.sessions
      && cs[i].session == env.sessions[cs[i].name]
      && (IsSet(env.userId) ==> "user_id" in cs[i].arguments && cs[i].arguments["user_id"] == Str(env.userId.value))
  }

  /** The calls a round makes are exactly the expected calls of its
      tool_use blocks. */
  lemma {:induction false} RoundCalls(prefix: seq<Block>, round: seq<Block>, env: Env, k0: nat)
    ensures Round(prefix, round, env, k0).calls == ExpectedCalls(ToolUses(prefix), env)
    decreases |prefix|
  {
    if prefix != [] {
      var init := prefix[..|prefix| - 1];
      var b := prefix[|prefix| - 1];
      RoundCalls(init, round, env, k0);
      var uses := ToolUses(prefix);
      var prev := Round(init, round, env, k0);
      if b.ToolUse? {
        assert uses == ToolUses(init) + [b];
        assert uses[..|uses| - 1] == ToolUses(init) && uses[|uses| - 1] == b;
        var d := Dispatch(b, env, k0 + |prev.calls|);
        assert d.calls == if b.name in env.sessions then [ToolCall(env.sessions[b.name], b.name, Arguments(b.input, env.userId))] else [];
        assert Round(prefix, round, env, k0).calls == prev.calls + d.calls;
        assert ExpectedCalls(uses, env) == ExpectedCalls(ToolUses(init), env) + d.calls;
      } else {
        assert uses == ToolUses(init);
      }
    }
  }

  // ---------------------------------------------------------------------
  // Properties of the whole query
  // ---------------------------------------------------------------------

  predicate ToolRound(r: ModelReply) {
    r.Content? && ToolUses(r.blocks) != []
  }

  /** The index of the round that ends the loop: the first reply that is
      an exception or has no tool_use block (or the number of replies). */
  function Settles(replies: seq<ModelReply>): (n: nat)
    ensures n <= |replies|
    ensures forall j :: 0 <= j < n ==> ToolRound(replies[j])
    ensures n < |replies| ==> !ToolRound(replies[n])
    decreases |replies|
  {
    if replies == [] || !ToolRound(replies[0]) then 0
    else
      var m := Settles(replies[1..]);
      assert forall j :: 1 <= j < m + 1 ==> replies[j] == replies[1..][j - 1];
      m + 1
  }

  /** The texts of all replies, in emission order. */
  function AllTexts(replies: seq<ModelReply>): seq<string>
    decreases |replies|
  {
    if replies == [] then []
    else (if replies[0].Content? then Texts(replies[0].blocks) else []) + AllTexts(replies[1..])
  }

  /** A round with tool_use blocks hands over to the next round with its
      turns, calls and texts added. */
  lemma RunToolStep(h: seq<Turn>, calls: seq<ToolCall>, texts: seq<string>, replies: seq<ModelReply>, env: Env)
    requires replies != [] && ToolRound(replies[0])
    ensures var bs := replies[0].blocks; var rr := Round(bs, bs, env, |calls|);
      Run(h, calls, texts, replies, env) == Run(h + rr.turns, calls + rr.calls, texts + Texts(bs), replies[1..], env)
  {
  }

  /** A round with tool_use blocks starts with an assistant turn and ends
      with a tool result. */
  lemma RoundBoundaries(bs: seq<Block>, env: Env, k0: nat)
    requires ToolUses(bs) != []
    ensures var t := Round(bs, bs, env, k0).turns;
      |t| >= 2 && t[0] == Assistant(bs) && t[|t| - 1].ToolResult?
  {
    RoundAnswersEveryToolUse(bs, bs, env, k0);
    var uses := ToolUses(bs);
    var t := Round(bs, bs, env, k0).turns;
    assert AnsweredAt(t, 0, bs, uses, env, k0);
    assert AnsweredAt(t, |uses| - 1, bs, uses, env, k0);
  }

  /** A model exception ends the loop with the transcript as the previous
      round left it: unchanged when it is the first model call, and
      otherwise ending on a tool result. */
  lemma {:induction false} RunFails(h: seq<Turn>, calls: seq<ToolCall>, texts: seq<string>, replies: seq<ModelReply>, env: Env)
    requires Settles(replies) < |replies| && replies[Settles(replies)].Raised?
    ensures var r := Run(h, calls, texts, replies, env); var n := Settles(replies);
      && (n == 0 ==> r.history == h && r.calls == calls)
      && (n > 0 ==> |r.history| > |h| && r.history[|r.history| - 1].ToolResult?)
    decreases |replies|
  {
    var n := Settles(replies);
    if n > 0 {
      var bs := replies[0].blocks;
      var rr := Round(bs, bs, env, |calls|);
      var rest := replies[1..];
      RunToolStep(h, calls, texts, replies, env);
      assert Settles(rest) == n - 1 && rest[n - 1] == replies[n];
      RunFails(h + rr.turns, calls + rr.calls, texts + Texts(bs), rest, env);
      if n == 1 {
        RoundBoundaries(bs, env, |calls|);
      }
    }
  }

  /** A reply without tool_use ends the loop on the spot. */
  lemma RunSettlesNow(h: seq<Turn>, calls: seq<ToolCall>, texts: seq<string>, replies: seq<ModelReply>, env: Env)
    requires replies != [] && replies[0].Content? && ToolUses(replies[0].blocks) == []
    ensures var bs := replies[0].blocks;
      Run(h, calls, texts, replies, env) == QueryRun(Replied(Strip(JoinLines(texts + Texts(bs)))), h + [Assistant(bs)], calls)
  {
  }

  lemma AllTextsCons(replies: seq<ModelReply>, n: nat)
    requires n < |replies|
    ensures AllTexts(replies[..n + 1]) == (if replies[0].Content? then Texts(replies[0].blocks) else []) + AllTexts(replies[1..][..n])
  {
    assert replies[..n + 1][1..] == replies[1..][..n];
  }

  /** How the loop ends on the model's replies: with the texts of every
      round gathered, by a model exception, or by running out of replies. */
  datatype Ending = Settled(texts: seq<string>) | RaisedBy(error: string) | Exhausted

  /** The loop's ending, which depends on the model's replies alone: there
      is no cap on rounds, and the first reply that is an exception or has
      no tool_use block ends it. */
  function EndOf(texts: seq<string>, replies: seq<ModelReply>): Ending
    decreases |replies|
  {
    if replies == [] then Exhausted
    else match replies[0]
      case Raised(e) => RaisedBy(e)
      case Content(bs) =>
        if ToolUses(bs) == [] then Settled(texts + Texts(bs))
        else EndOf(texts + Texts(bs), replies[1..])
  }

  function Verdict(texts: seq<string>, replies: seq<ModelReply>): QueryOutcome {
    match EndOf(texts, replies)
    case Settled(ts) => Replied(Strip(JoinLines(ts)))
    case RaisedBy(e) => ModelFailed(e)
    case Exhausted => OutOfReplies
  }

  /** The loop's outcome is its verdict on the replies: the transcript, the
      registry and the tool executor do not affect it. */
  lemma {:induction false} RunVerdict(h: seq<Turn>, calls: seq<ToolCall>, texts: seq<string>, replies: seq<ModelReply>, env: Env)
    ensures Run(h, calls, texts, replies, env).outcome == Verdict(texts, replies)
    decreases |replies|
  {
    if replies != [] && ToolRound(replies[0]) {
      var bs := replies[0].blocks;
      var rr := Round(bs, bs, env, |calls|);
      RunToolStep(h, calls, texts, replies, env);
      RunVerdict(h + rr.turns, calls + rr.calls, texts + Texts(bs), replies[1..], env);
      assert EndOf(texts, replies) == EndOf(texts + Texts(bs), replies[1..]);
    }
  }

  /** How the loop ends, by the first reply without tool_use (at index
      `Settles(replies)`): no such reply means the replies ran out; an
      exception there ends it; otherwise it ends with the texts of every
      round up to that reply. */
  lemma {:induction false} EndSettles(texts: seq<string>, replies: seq<ModelReply>)
    ensures var e := EndOf(texts, replies); var n := Settles(replies);
      && (n == |replies| <==> e == Exhausted)
      && (n < |replies| && replies[n].Raised? ==> e == RaisedBy(replies[n].error))
      && (n < |replies| && replies[n].Content? ==> e == Settled(texts + AllTexts(replies[..n + 1])))
    decreases |replies|
  {
    var n := Settles(replies);
    if replies != [] {
      if n == 0 {
        if replies[0].Content? {
          var bs := replies[0].blocks;
          AllTextsCons(replies, 0);
          assert replies[1..][..0] == [];
          assert texts + AllTexts(replies[..1]) == texts + Texts(bs);
        }
      } else {
        assert ToolRound(replies[0]);
        var bs := replies[0].blocks;
        var rest := replies[1..];
        assert Settles(rest) == n - 1;
        assert n < |replies| ==> rest[n - 1] == replies[n];
        EndSettles(texts + Texts(bs), rest);
        if n < |replies| && replies[n].Content? {
          AllTextsCons(replies, n);
          assert texts + AllTexts(replies[..n + 1]) == (texts + Texts(bs)) + AllTexts(rest[..n]);
        }
      }
    }
  }

  /** The ending of a whole query, which starts with no texts gathered. */
  lemma EndFromStart(replies: seq<ModelReply>)
    ensures var e := EndOf([], replies); var n := Settles(replies);
      && (n == |replies| <==> e == Exhausted)
      && (n < |replies| && replies[n].Raised? ==> e == RaisedBy(replies[n].error))
      && (n < |replies| && replies[n].Content? ==> e == Settled(AllTexts(replies[..n + 1])))
  {
    EndSettles([], replies);
    var n := Settles(replies);
    if n < |replies| && replies[n].Content? {
      var ts := AllTexts(replies[..n + 1]);
      assert [] + ts == ts;
    }
  }

  /** The outcome of a query: out of replies exactly when every reply asks
      for tools; otherwise the first reply without tool_use decides it, an
      exception being passed on and a text reply giving the newline-join of
      the texts of every round, stripped. */
  lemma QueryOutcomeSettles(h: seq<Turn>, query: string, replies: seq<ModelReply>, env: Env)
    ensures var o := Query(h, query, replies, env).outcome; var n := Settles(replies);
      && (n == |replies| <==> o == OutOfReplies)
      && (n < |replies| && replies[n].Raised? ==> o == ModelFailed(replies[n].error))
      && (n < |replies| && replies[n].Content? ==> o == Replied(Strip(JoinLines(AllTexts(replies[..n + 1])))))
  {
    assert Query(h, query, replies, env) == Run(Admitted(h, query), [], [], replies, env);
    RunVerdict(Admitted(h, query), [], [], replies, env);
    EndFromStart(replies);
  }

  /** The reply that ends the loop is appended as the last turn, and it
      holds text blocks only. */
  lemma {:induction false} RunEndsOnTextTurn(h: seq<Turn>, calls: seq<ToolCall>, texts: seq<string>, replies: seq<ModelReply>, env: Env)
    requires Settles(replies) < |replies| && replies[Settles(replies)].Content?
    ensures var t := Run(h, calls, texts, replies, env).history; var bs := replies[Settles(replies)].blocks;
      && |t| > |h|
      && t[|t| - 1] == Assistant(bs)
      && forall i :: 0 <= i < |bs| ==> bs[i].Text?
    decreases |replies|
  {
    var n := Settles(replies);
    var bs := replies[0].blocks;
    if n == 0 {
      RunSettlesNow(h, calls, texts, replies, env);
    } else {
      assert ToolRound(replies[0]);
      var rr := Round(bs, bs, env, |calls|);
      var rest := replies[1..];
      RunToolStep(h, calls, texts, replies, env);
      assert Settles(rest) == n - 1 && rest[n - 1] == replies[n];
      RoundBoundaries(bs, env, |calls|);
      RunEndsOnTextTurn(h + rr.turns, calls + rr.calls, texts + Texts(bs), rest, env);
    }
  }

  /** Appending a paired transcript that does not start with a tool result
      keeps it paired. */
  lemma PairedAppend(a: seq<Turn>, b: seq<Turn>)
    requires ResultsPaired(a) && ResultsPaired(b)
    requires b == [] || !b[0].ToolResult?
    ensures ResultsPaired(a + b)
  {
    var t := a + b;
    forall p | 0 <= p < |t| && t[p].ToolResult?
      ensures p > 0 && t[p - 1].Assistant? && HoldsToolUse(t[p - 1].blocks, t[p].toolUseId)
    {
      if p < |a| {
        assert t[p] == a[p] && t[p - 1] == a[p - 1];
      } else {
        assert t[p] == b[p - |a|];
        assert p - |a| > 0;
        assert t[p - 1] == b[p - |a| - 1];
      }
    }
  }

  /** The turns the loop appends to the transcript, given the calls made
      so far and the model's remaining replies. */
  function Appended(calls: seq<ToolCall>, replies: seq<ModelReply>, env: Env): seq<Turn>
    decreases |replies|
  {
    if replies == [] || replies[0].Raised? then []
    else
      var bs := replies[0].blocks;
      if ToolUses(bs) == [] then [Assistant(bs)]
      else
        var rr := Round(bs, bs, env, |calls|);
        rr.turns + Appended(calls + rr.calls, replies[1..], env)
  }

  /** The loop only appends to the transcript. */
  lemma {:induction false} RunAppends(h: seq<Turn>, calls: seq<ToolCall>, texts: seq<string>, replies: seq<ModelReply>, env: Env)
    ensures Run(h, calls, texts, replies, env).history == h + Appended(calls, replies, env)
    decreases |replies|
  {
    if replies == [] || replies[0].Raised? {
      assert Appended(calls, replies, env) == [] && h + [] == h;
    } else if ToolRound(replies[0]) {
      var bs := replies[0].blocks;
      var rr := Round(bs, bs, env, |calls|);
      var rest := Appended(calls + rr.calls, replies[1..], env);
      RunToolStep(h, calls, texts, replies, env);
      AppendedToolStep(calls, replies, env);
      RunAppends(h + rr.turns, calls + rr.calls, texts + Texts(bs), replies[1..], env);
      assert (h + rr.turns) + rest == h + (rr.turns + rest);
    } else {
      RunSettlesNow(h, calls, texts, replies, env);
    }
  }

  lemma AppendedToolStep(calls: seq<ToolCall>, replies: seq<ModelReply>, env: Env)
    requires replies != [] && ToolRound(replies[0])
    ensures var bs := replies[0].blocks; var rr := Round(bs, bs, env, |calls|);
      Appended(calls, replies, env) == rr.turns + Appended(calls + rr.calls, replies[1..], env)
  {
  }

  /** What the loop appends starts with an assistant turn and has every
      tool result directly after the assistant turn that asked for it. */
  lemma {:induction false} AppendedPaired(calls: seq<ToolCall>, replies: seq<ModelReply>, env: Env)
    ensures var ext := Appended(calls, replies, env);
      ResultsPaired(ext) && (ext != [] ==> ext[0].Assistant?)
    decreases |replies|
  {
    if replies != [] && ToolRound(replies[0]) {
      var bs := replies[0].blocks;
      var rr := Round(bs, bs, env, |calls|);
      AppendedPaired(calls + rr.calls, replies[1..], env);
      RoundBoundaries(bs, env, |calls|);
      assert bs == bs[..|bs|];
      RoundPaired(bs, bs, env, |calls|);
      PairedAppend(rr.turns, Appended(calls + rr.calls, replies[1..], env));
    }
  }

  /** Every tool call of the loop goes to the registered session of its
      tool and carries the bot's user id when it is set. */
  lemma {:induction false} RunCallsSafe(h: seq<Turn>, calls: seq<ToolCall>, texts: seq<string>, replies: seq<ModelReply>, env: Env)
    requires SafeCalls(calls, env)
    ensures SafeCalls(Run(h, calls, texts, replies, env).calls, env)
    decreases |replies|
  {
    if replies != [] && ToolRound(replies[0]) {
      var bs := replies[0].blocks;
      var rr := Round(bs, bs, env, |calls|);
      RunToolStep(h, calls, texts, replies, env);
      RoundCalls(bs, bs, env, |calls|);
      var cs := calls + rr.calls;
      assert forall i :: 0 <= i < |cs| ==> cs[i] == if i < |calls| then calls[i] else rr.calls[i - |calls|];
      RunCallsSafe(h + rr.turns, cs, texts + Texts(bs), replies[1..], env);
    }
  }

  /** What one `process_query` guarantees: the transcript keeps the bounded
      old transcript and the query as a user turn, then only appends
      well-paired turns; every tool call is bound to the session and user
      id; and a model exception on the first call leaves only the query. */
  lemma QueryGuarantees(h: seq<Turn>, query: string, replies: seq<ModelReply>, env: Env)
    ensures var r := Query(h, query, replies, env); var a := Admitted(h, query);
      && |r.history| >= |a| && r.history[..|a|] == a
      && ResultsPaired(r.history[|a|..])
      && SafeCalls(r.calls, env)
      && (replies != [] && replies[0].Raised? ==> r.history == a && r.calls == [])
  {
    var a := Admitted(h, query);
    RunAppends(a, [], [], replies, env);
    AppendedPaired([], replies, env);
    var r := Query(h, query, replies, env);
    assert r.history[..|a|] == a && r.history[|a|..] == Appended([], replies, env);
    RunCallsSafe(a, [], [], replies, env);
  }
}
