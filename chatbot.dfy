/**
 * The chatbot object: its tool registry, filled by connecting to tool
 * servers; its transcript, extended by each query; and the console
 * command rules (`@topic`, `/prompts`, `/prompt name k=v ...`).
 */
module Chatbot {
  import opened Optional
  import opened Values
  import opened Strings
  import opened Orchestration

  datatype ToolSpec = ToolSpec(name: string, description: string, inputSchema: Value)

  datatype PromptSpec = PromptSpec(name: string, description: string, arguments: seq<string>)

  /** What listing one catalogue of a server gives: its entries (an absent
      or empty listing is `Listed([])`), or an exception. */
  datatype Listing<T> = Listed(items: seq<T>) | ListFailed(error: string)

  /** What connecting to one configured server gives: a failure to start or
      initialise it, or its tool, prompt and resource listings. */
  datatype ServerReply =
    | Unreachable(error: string)
    | Connected(tools: Listing<ToolSpec>, prompts: Listing<PromptSpec>, resources: Listing<string>)

  /** The registry part of the bot: one name-to-session map shared by tool
      names, prompt names and resource URIs, and the two catalogues. */
  datatype Registry = Registry(sessions: map<string, SessionId>, tools: seq<ToolSpec>, prompts: seq<PromptSpec>)

  function ToolName(t: ToolSpec): string { t.name }

  function PromptName(p: PromptSpec): string { p.name }

  /** The names of catalogue entries, in order. */
  function Names<T>(xs: seq<T>, name: T -> string): (ns: seq<string>)
    ensures |ns| == |xs| && forall i :: 0 <= i < |xs| ==> ns[i] == name(xs[i])
  {
    seq(|xs|, i requires 0 <= i < |xs| => name(xs[i]))
  }

  // ---------------------------------------------------------------------
  // Registration
  // ---------------------------------------------------------------------

  /** Writing each of `names` into the map with session `s`, in order. */
  function Bind(m: map<string, SessionId>, names: seq<string>, s: SessionId): (r: map<string, SessionId>)
    ensures forall k :: k in r <==> k in m || k in names
    ensures forall k :: k in names ==> r[k] == s
    ensures forall k :: k in m && k !in names ==> r[k] == m[k]
    decreases |names|
  {
    if names == [] then m
    else Bind(m, names[..|names| - 1], s)[names[|names| - 1] := s]
  }

  /** The names a server's reply registers: its tools when listed; then its
      prompts when those are listed too; then its resources when all three
      are. A failed listing stops the ones after it. */
  function Announced(reply: ServerReply): (names: seq<string>)
    ensures Names(ListedTools(reply), ToolName) + Names(ListedPrompts(reply), PromptName) <= names
    ensures |names| > |ListedTools(reply)| + |ListedPrompts(reply)| ==> reply.Connected? && reply.resources.Listed?
  {
    if reply.Unreachable? || reply.tools.ListFailed? then []
    else if reply.prompts.ListFailed? then Names(reply.tools.items, ToolName)
    else if reply.resources.ListFailed? then Names(reply.tools.items, ToolName) + Names(reply.prompts.items, PromptName)
    else Names(reply.tools.items, ToolName) + Names(reply.prompts.items, PromptName) + reply.resources.items
  }

  function ListedTools(reply: ServerReply): seq<ToolSpec> {
    if reply.Unreachable? || reply.tools.ListFailed? then [] else reply.tools.items
  }

  function ListedPrompts(reply: ServerReply): seq<PromptSpec> {
    if reply.Unreachable? || reply.tools.ListFailed? || reply.prompts.ListFailed? then []
    else reply.prompts.items
  }

  /** `connect_to_server`: the registry after connecting to `server`. */
  function Connect(reg: Registry, server: string, reply: ServerReply): (r: Registry)
    ensures reg.sessions.Keys <= r.sessions.Keys
    ensures forall k :: k in r.sessions && k !in reg.sessions ==> r.sessions[k] == Session(server)
    ensures r.tools == reg.tools + ListedTools(reply) && r.prompts == reg.prompts + ListedPrompts(reply)
  {
    match reply
    case Unreachable(_) => reg
    case Connected(tools, prompts, resources) =>
      match tools
      case ListFailed(_) => reg
      case Listed(ts) =>
        var s := Session(server);
        var afterTools := Registry(Bind(reg.sessions, Names(ts, ToolName), s), reg.tools + ts, reg.prompts);
        match prompts
        case ListFailed(_) => afterTools
        case Listed(ps) =>
          var afterPrompts := Registry(Bind(afterTools.sessions, Names(ps, PromptName), s), afterTools.tools, afterTools.prompts + ps);
          match resources
          case ListFailed(_) => afterPrompts
          case Listed(uris) => Registry(Bind(afterPrompts.sessions, uris, s), afterPrompts.tools, afterPrompts.prompts)
  }

  /** `connect_to_servers` over the configured servers, in order. */
  function ConnectAll(reg: Registry, servers: seq<(string, ServerReply)>): (r: Registry)
    ensures reg.sessions.Keys <= r.sessions.Keys
    decreases |servers|
  {
    if servers == [] then reg
    else
      var last := servers[|servers| - 1];
      Connect(ConnectAll(reg, servers[..|servers| - 1]), last.0, last.1)
  }

  /** One connection binds every name it announces to the server's session,
      leaves every other name as it was, and grows each catalogue by exactly
      the entries it listed. */
  lemma ConnectRegisters(reg: Registry, server: string, reply: ServerReply)
    ensures var r := Connect(reg, server, reply); var names := Announced(reply);
      && (forall k :: k in r.sessions <==> k in reg.sessions || k in names)
      && (forall k :: k in names ==> r.sessions[k] == Session(server))
      && (forall k :: k in reg.sessions && k !in names ==> r.sessions[k] == reg.sessions[k])
      && r.tools == reg.tools + ListedTools(reply)
      && r.prompts == reg.prompts + ListedPrompts(reply)
  {
    if reply.Connected? && reply.tools.Listed? && reply.prompts.Listed? {
      var tn := Names(reply.tools.items, ToolName);
      var pn := Names(reply.prompts.items, PromptName);
      if reply.resources.Listed? {
        var uris := reply.resources.items;
        assert forall k :: k in tn + pn + uris <==> k in tn || k in pn || k in uris;
      } else {
        assert forall k :: k in tn + pn <==> k in tn || k in pn;
      }
    }
  }

  /** Last writer wins: after connecting to all servers, a name belongs to
      the session of the last server that announced it. */
  lemma {:induction false} LastAnnouncerWins(reg: Registry, servers: seq<(string, ServerReply)>, i: nat, k: string)
    requires i < |servers| && k in Announced(servers[i].1)
    requires forall j :: i < j < |servers| ==> k !in Announced(servers[j].1)
    ensures var r := ConnectAll(reg, servers); k in r.sessions && r.sessions[k] == Session(servers[i].0)
    decreases |servers|
  {
    var init := servers[..|servers| - 1];
    var last := servers[|servers| - 1];
    ConnectRegisters(ConnectAll(reg, init), last.0, last.1);
    if i < |servers| - 1 {
      assert forall j :: i < j < |init| ==> init[j] == servers[j];
      LastAnnouncerWins(reg, init, i, k);
    }
  }

  /** A name no configured server announces is registered after connecting
      exactly when it was before, and keeps its session. */
  lemma {:induction false} UnannouncedUntouched(reg: Registry, servers: seq<(string, ServerReply)>, k: string)
    requires forall j :: 0 <= j < |servers| ==> k !in Announced(servers[j].1)
    ensures var r := ConnectAll(reg, servers);
      && (k in r.sessions <==> k in reg.sessions)
      && (k in reg.sessions ==> r.sessions[k] == reg.sessions[k])
    decreases |servers|
  {
    if servers != [] {
      var init := servers[..|servers| - 1];
      var last := servers[|servers| - 1];
      assert forall j :: 0 <= j < |init| ==> init[j] == servers[j];
      UnannouncedUntouched(reg, init, k);
      ConnectRegisters(ConnectAll(reg, init), last.0, last.1);
    }
  }

  /** The tool catalogue lists every configured server's tools, in server
      order, after the tools already known. */
  lemma {:induction false} CatalogueAccumulates(reg: Registry, servers: seq<(string, ServerReply)>)
    ensures ConnectAll(reg, servers).tools == reg.tools + AllListedTools(servers)
    decreases |servers|
  {
    if servers != [] {
      var init := servers[..|servers| - 1];
      var last := servers[|servers| - 1];
      var prev := ConnectAll(reg, init);
      CatalogueAccumulates(reg, init);
      assert ConnectAll(reg, servers).tools == prev.tools + ListedTools(last.1);
      assert AllListedTools(servers) == AllListedTools(init) + ListedTools(last.1);
      assert reg.tools + AllListedTools(init) + ListedTools(last.1) == reg.tools + (AllListedTools(init) + ListedTools(last.1));
    }
  }

  function AllListedTools(servers: seq<(string, ServerReply)>): seq<ToolSpec>
    decreases |servers|
  {
    if servers == [] then []
    else AllListedTools(servers[..|servers| - 1]) + ListedTools(servers[|servers| - 1].1)
  }

  // ---------------------------------------------------------------------
  // Console commands
  // ---------------------------------------------------------------------

  const PapersScheme := "papers://"

  /** The resource URI of `@topic`; `@folders` has its own branch in the
      console loop, which gives the same URI. */
  function TopicUri(topic: string): (uri: string)
    ensures StartsWith(uri, PapersScheme) && uri[|PapersScheme|..] == topic
  {
    if topic == "folders" then "papers://folders" else PapersScheme + topic
  }

  /** `key=value` split at the first `=`; None when the part has no `=`. */
  function Binding(part: string): Option<(string, string)> {
    SplitOnce(part, '=')
  }

  /** The arguments of `/prompt name k=v ...`: parts without `=` are skipped
      and a repeated key keeps its last value. */
  function PromptArgs(parts: seq<string>): (args: map<string, string>)
    ensures forall k :: k in args ==>
      exists i :: 0 <= i < |parts| && Binding(parts[i]).Some? && Binding(parts[i]).value.0 == k
    decreases |parts|
  {
    if parts == [] then map[]
    else
      var init := PromptArgs(parts[..|parts| - 1]);
      assert forall i :: 0 <= i < |parts| - 1 ==> parts[..|parts| - 1][i] == parts[i];
      match Binding(parts[|parts| - 1])
      case None => init
      case Some(kv) => init[kv.0 := kv.1]
  }

  /** Each key gets the value of its last `k=v` part. */
  lemma {:induction false} PromptArgsLastWins(parts: seq<string>, i: nat)
    requires i < |parts| && Binding(parts[i]).Some?
    requires forall j :: i < j < |parts| && Binding(parts[j]).Some? ==> Binding(parts[j]).value.0 != Binding(parts[i]).value.0
    ensures var kv := Binding(parts[i]).value; kv.0 in PromptArgs(parts) && PromptArgs(parts)[kv.0] == kv.1
    decreases |parts|
  {
    var init := parts[..|parts| - 1];
    var kv := Binding(parts[i]).value;
    if i < |parts| - 1 {
      assert forall j :: i < j < |init| ==> init[j] == parts[j];
      assert init[i] == parts[i];
      PromptArgsLastWins(init, i);
      var last := Binding(parts[|parts| - 1]);
      assert last.None? || last.value.0 != kv.0;
    }
  }

  /** What the console does with one input line. */
  datatype Command =
    | Blank
    | Quit
    | ReadResource(uri: string)
    | ListPrompts
    | PromptUsage
    | RunPrompt(name: string, args: map<string, string>)
    | UnknownCommand(command: string)
    | Ask(query: string)

  /** A stripped line starting with `/`: its first word, lower-cased, is
      the command; `/prompt` takes a name and `k=v` arguments. */
  function SlashCommand(q: string): (c: Command)
    requires q != "" && q[0] == '/'
    ensures Words(q) != []
    ensures var ws := Words(q);
      && (Lower(ws[0]) == "/prompts" ==> c == ListPrompts)
      && (Lower(ws[0]) == "/prompt" && |ws| < 2 ==> c == PromptUsage)
      && (Lower(ws[0]) == "/prompt" && |ws| >= 2 ==> c == RunPrompt(ws[1], PromptArgs(ws[2..])))
      && (Lower(ws[0]) != "/prompts" && Lower(ws[0]) != "/prompt" ==> c == UnknownCommand(Lower(ws[0])))
    ensures c.RunPrompt? ==> c.name != "" && NoSpace(c.name)
  {
    var parts := Words(q);
    assert parts != [] by {
      assert !IsSpace(q[0]);
    }
    var command := Lower(parts[0]);
    if command == "/prompts" then ListPrompts
    else if command == "/prompt" then
      if |parts| < 2 then PromptUsage else RunPrompt(parts[1], PromptArgs(parts[2..]))
    else UnknownCommand(command)
  }

  /** What the console does with a line already stripped of surrounding
      whitespace. */
  function Interpret(q: string): (c: Command)
    ensures c.Blank? <==> q == ""
    ensures Lower(q) == "quit" ==> c == Quit
    ensures q != "" && Lower(q) != "quit" && q[0] == '@' ==> c == ReadResource(TopicUri(q[1..]))
    ensures q != "" && Lower(q) != "quit" && q[0] == '/' ==> c == SlashCommand(q)
    ensures q != "" && Lower(q) != "quit" && q[0] != '@' && q[0] != '/' ==> c == Ask(q)
    ensures c.Ask? ==> c.query == q && q[0] != '@' && q[0] != '/' && Lower(q) != "quit"
    ensures c.ReadResource? ==> q != "" && q[0] == '@' && StartsWith(c.uri, PapersScheme) && c.uri[|PapersScheme|..] == q[1..]
    ensures (c.ListPrompts? || c.PromptUsage? || c.RunPrompt? || c.UnknownCommand?) ==> q != "" && q[0] == '/'
  {
    if q == "" then Blank
    else if Lower(q) == "quit" then Quit
    else if q[0] == '@' then ReadResource(TopicUri(q[1..]))
    else if q[0] == '/' then SlashCommand(q)
    else Ask(q)
  }

  /** What the console does with one input line: blank lines are skipped,
      `quit` in any case ends the loop, `@topic` reads a resource, `/`
      lines are commands, and anything else is a query. */
  function Classify(line: string): (c: Command)
    ensures c.Blank? <==> Strip(line) == ""
    ensures c.Ask? ==> c.query == Strip(line) && c.query[0] != '@' && c.query[0] != '/' && Lower(c.query) != "quit"
    ensures c.ReadResource? ==> StartsWith(c.uri, PapersScheme) && c.uri[|PapersScheme|..] == Strip(line)[1..]
    ensures c.RunPrompt? ==> c.name != "" && NoSpace(c.name)
    ensures var q := Strip(line); Lower(q) == "quit" ==> c == Quit
    ensures var q := Strip(line); q != "" && Lower(q) != "quit" && q[0] == '@' ==>
      c == ReadResource(TopicUri(q[1..]))
    ensures var q := Strip(line); q != "" && q[0] == '/' ==> Words(q) != []
    ensures var q := Strip(line); var ws := Words(q);
      q != "" && Lower(q) != "quit" && q[0] == '/' && ws != [] ==>
        && (Lower(ws[0]) == "/prompts" ==> c == ListPrompts)
        && (Lower(ws[0]) == "/prompt" && |ws| < 2 ==> c == PromptUsage)
        && (Lower(ws[0]) == "/prompt" && |ws| >= 2 ==> c == RunPrompt(ws[1], PromptArgs(ws[2..])))
        && (Lower(ws[0]) != "/prompts" && Lower(ws[0]) != "/prompt" ==> c == UnknownCommand(Lower(ws[0])))
    ensures var q := Strip(line); q != "" && Lower(q) != "quit" && q[0] != '@' && q[0] != '/' ==> c == Ask(q)
  {
    Interpret(Strip(line))
  }

  /** Prompt arguments get the bot's user id only when none was given: an
      explicit `user_id` is kept, unlike tool arguments. */
  function PromptArguments(args: map<string, string>, userId: Option<string>): (r: map<string, string>)
    ensures forall k :: k in args ==> k in r && r[k] == args[k]
    ensures r.Keys == args.Keys + (if IsSet(userId) then {"user_id"} else {})
    ensures IsSet(userId) && "user_id" !in args ==> r["user_id"] == userId.value
  {
    if IsSet(userId) && "user_id" !in args then args["user_id" := userId.value] else args
  }

  /** What fetching a prompt gives: its text (the first message's content
      as text), no messages, or an exception. */
  datatype PromptReply = PromptText(text: string) | NoMessages | PromptRaised(error: string)

  datatype PromptOutcome =
    | PromptNotFound
    | PromptNotRun                       // the prompt had no messages
    | PromptFailed(error: string)        // get_prompt raised; caught and reported
    | PromptRan(outcome: QueryOutcome)   // its text went through process_query

  // ---------------------------------------------------------------------
  // The bot
  // ---------------------------------------------------------------------

  class ChatBot {
    var chatHistory: seq<Turn>
    var availableTools: seq<ToolSpec>
    var availablePrompts: seq<PromptSpec>
    var sessions: map<string, SessionId>
    var userId: Option<string>

    constructor()
      ensures chatHistory == [] && availableTools == [] && availablePrompts == []
      ensures sessions == map[] && userId == None
    {
      chatHistory := [];
      availableTools := [];
      availablePrompts := [];
      sessions := map[];
      userId := None;
    }

    function Reg(): Registry
      reads this
    {
      Registry(sessions, availableTools, availablePrompts)
    }

    /** `connect_to_server`: register the tools, then the prompts, then the
        resources of one server, stopping at the first failed listing. */
    method ConnectToServer(serverName: string, reply: ServerReply)
      modifies this`sessions, this`availableTools, this`availablePrompts
      ensures Reg() == Connect(old(Reg()), serverName, reply)
    {
      if reply.Unreachable? || reply.tools.ListFailed? {
        return;
      }
      var s := Session(serverName);
      RegisterTools(reply.tools.items, s);
      if reply.prompts.ListFailed? {
        return;
      }
      RegisterPrompts(reply.prompts.items, s);
      if reply.resources.ListFailed? {
        return;
      }
      RegisterResources(reply.resources.items, s);
    }

    /** The tool loop of `connect_to_server`. */
    method RegisterTools(ts: seq<ToolSpec>, s: SessionId)
      modifies this`sessions, this`availableTools
      ensures sessions == Bind(old(sessions), Names(ts, ToolName), s)
      ensures availableTools == old(availableTools) + ts
    {
      var i := 0;
      while i < |ts|
        invariant 0 <= i <= |ts|
        invariant sessions == Bind(old(sessions), Names(ts, ToolName)[..i], s)
        invariant availableTools == old(availableTools) + ts[..i]
      {
        assert Names(ts, ToolName)[..i + 1] == Names(ts, ToolName)[..i] + [ts[i].name];
        assert ts[..i + 1] == ts[..i] + [ts[i]];
        sessions := sessions[ts[i].name := s];
        availableTools := availableTools + [ts[i]];
        i := i + 1;
      }
      assert Names(ts, ToolName)[..|ts|] == Names(ts, ToolName) && ts[..|ts|] == ts;
    }

    /** The prompt loop of `connect_to_server`. */
    method RegisterPrompts(ps: seq<PromptSpec>, s: SessionId)
      modifies this`sessions, this`availablePrompts
      ensures sessions == Bind(old(sessions), Names(ps, PromptName), s)
      ensures availablePrompts == old(availablePrompts) + ps
    {
      var i := 0;
      while i < |ps|
        invariant 0 <= i <= |ps|
        invariant sessions == Bind(old(sessions), Names(ps, PromptName)[..i], s)
        invariant availablePrompts == old(availablePrompts) + ps[..i]
      {
        assert Names(ps, PromptName)[..i + 1] == Names(ps, PromptName)[..i] + [ps[i].name];
        assert ps[..i + 1] == ps[..i] + [ps[i]];
        sessions := sessions[ps[i].name := s];
        availablePrompts := availablePrompts + [ps[i]];
        i := i + 1;
      }
      assert Names(ps, PromptName)[..|ps|] == Names(ps, PromptName) && ps[..|ps|] == ps;
    }

    /** The resource loop of `connect_to_server`. */
    method RegisterResources(uris: seq<string>, s: SessionId)
      modifies this`sessions
      ensures sessions == Bind(old(sessions), uris, s)
    {
      var i := 0;
      while i < |uris|
        invariant 0 <= i <= |uris|
        invariant sessions == Bind(old(sessions), uris[..i], s)
      {
        assert uris[..i + 1] == uris[..i] + [uris[i]];
        sessions := sessions[uris[i] := s];
        i := i + 1;
      }
      assert uris[..|uris|] == uris;
    }

    /** `connect_to_servers`: None stands for an unreadable configuration,
        which is reported (ok false) before any server is contacted. */
    method ConnectToServers(config: Option<seq<(string, ServerReply)>>) returns (ok: bool)
      modifies this`sessions, this`availableTools, this`availablePrompts
      ensures ok <==> config.Some?
      ensures ok ==> Reg() == ConnectAll(old(Reg()), config.value)
      ensures !ok ==> Reg() == old(Reg())
    {
      if config.None? {
        return false;
      }
      var servers := config.value;
      var i := 0;
      while i < |servers|
        invariant 0 <= i <= |servers|
        invariant Reg() == ConnectAll(old(Reg()), servers[..i])
      {
        assert servers[..i + 1][..i] == servers[..i];
        ConnectToServer(servers[i].0, servers[i].1);
        i := i + 1;
      }
      assert servers[..|servers|] == servers;
      return true;
    }

    /** `process_query`: bound the transcript, append the query, then run
        model rounds until one has no tool_use block. `replies` are the
        model's successive replies and `callTool` the tool executor; the
        calls made are returned. */
    method ProcessQuery(query: string, replies: seq<ModelReply>, callTool: (nat, ToolCall) -> ToolOutcome)
      returns (outcome: QueryOutcome, calls: seq<ToolCall>)
      modifies this`chatHistory
      ensures var r := Query(old(chatHistory), query, replies, Env(sessions, userId, callTool));
        outcome == r.outcome && chatHistory == r.history && calls == r.calls
    {
      var env := Env(sessions, userId, callTool);
      ghost var goal := Query(chatHistory, query, replies, env);
      if |chatHistory| > HistoryLimit {
        chatHistory := chatHistory[|chatHistory| - KeptTurns..];
      }
      chatHistory := chatHistory + [User(query)];
      var texts: seq<string> := [];
      calls := [];
      var j := 0;
      assert chatHistory == Admitted(old(chatHistory), query);
      while true
        invariant 0 <= j <= |replies|
        invariant Run(chatHistory, calls, texts, replies[j..], env) == goal
        decreases |replies| - j
      {
        if j == |replies| {
          assert replies[j..] == [];
          outcome := OutOfReplies;
          return;
        }
        var done;
        assert replies[j..][1..] == replies[j + 1..];
        done, outcome, texts, calls := ServeReply(replies[j..], env, texts, calls);
        j := j + 1;
        if done {
          return;
        }
      }
    }

    /** One pass of the `process_query` loop over the next model reply
        `pending[0]`: an exception ends the query, a reply without tool_use
        is appended and ends it with the gathered texts, and otherwise the
        round is served and the loop goes on with `pending[1..]`. */
    method ServeReply(pending: seq<ModelReply>, env: Env, texts: seq<string>, calls: seq<ToolCall>)
      returns (done: bool, outcome: QueryOutcome, texts': seq<string>, calls': seq<ToolCall>)
      requires pending != []
      modifies this`chatHistory
      ensures var r := Run(old(chatHistory), calls, texts, pending, env);
        if done then r == QueryRun(outcome, chatHistory, calls')
        else r == Run(chatHistory, calls', texts', pending[1..], env)
    {
      var reply := pending[0];
      if reply.Raised? {
        return true, ModelFailed(reply.error), texts, calls;
      }
      var bs := reply.blocks;
      var hasToolUse, roundTexts, roundCalls := ServeRound(bs, env, |calls|);
      texts' := texts + roundTexts;
      calls' := calls + roundCalls;
      if !hasToolUse {
        RoundWithoutToolUse(bs, bs, env, |calls|);
        RunSettlesNow(old(chatHistory), calls, texts, pending, env);
        assert chatHistory == old(chatHistory) + [] == old(chatHistory);
        assert calls' == calls + [] == calls;
        chatHistory := chatHistory + [Assistant(bs)];
        return true, Replied(Strip(JoinLines(texts'))), texts', calls';
      }
      RunToolStep(old(chatHistory), calls, texts, pending, env);
      done, outcome := false, OutOfReplies;
    }

    /** One round of `process_query` over the reply's blocks: gather the
        texts and, for each tool_use block, append the assistant turn and
        its tool_result. `k0` is the number of calls made before. */
    method ServeRound(bs: seq<Block>, env: Env, k0: nat)
      returns (hasToolUse: bool, texts: seq<string>, calls: seq<ToolCall>)
      modifies this`chatHistory
      ensures hasToolUse <==> ToolUses(bs) != []
      ensures texts == Texts(bs)
      ensures var rr := Round(bs, bs, env, k0);
        chatHistory == old(chatHistory) + rr.turns && calls == rr.calls
    {
      hasToolUse := false;
      texts := [];
      calls := [];
      var i := 0;
      while i < |bs|
        invariant 0 <= i <= |bs|
        invariant chatHistory == old(chatHistory) + Round(bs[..i], bs, env, k0).turns
        invariant calls == Round(bs[..i], bs, env, k0).calls
        invariant texts == Texts(bs[..i])
        invariant hasToolUse <==> ToolUses(bs[..i]) != []
      {
        var b := bs[i];
        RoundStep(bs, i, env, k0);
        if b.Text? {
          texts := texts + [b.text];
        } else {
          hasToolUse := true;
          chatHistory := chatHistory + [Assistant(bs)];
          var payload, made := ServeToolUse(b, env, k0 + |calls|);
          chatHistory := chatHistory + [ToolResult(b.id, payload)];
          calls := calls + made;
        }
        i := i + 1;
      }
      assert bs[..|bs|] == bs;
    }

    /** Serving one tool_use block: an unregistered tool gets a not-found
        payload and no call; a registered one is called once with the
        user-bound arguments, and an exception becomes an error payload. */
    method ServeToolUse(b: Block, env: Env, k: nat) returns (payload: ToolPayload, made: seq<ToolCall>)
      requires b.ToolUse?
      ensures Dispatched(payload, made) == Dispatch(b, env, k)
    {
      if b.name !in env.sessions {
        return ToolError(NotFound(b.name)), [];
      }
      var args := b.input;
      if IsSet(env.userId) {
        args := args["user_id" := Str(env.userId.value)];
      }
      var call := ToolCall(env.sessions[b.name], b.name, args);
      match env.callTool(k, call) {
        case Returned(c) =>
          payload := ToolContent(c);
        case Failed(e) =>
          payload := ToolError(ExecutionFailed(b.name, e));
      }
      made := [call];
    }

    /** `ask`: the same as `process_query`. */
    method Ask(query: string, replies: seq<ModelReply>, callTool: (nat, ToolCall) -> ToolOutcome)
      returns (outcome: QueryOutcome, calls: seq<ToolCall>)
      modifies this`chatHistory
      ensures var r := Query(old(chatHistory), query, replies, Env(sessions, userId, callTool));
        outcome == r.outcome && chatHistory == r.history && calls == r.calls
    {
      outcome, calls := ProcessQuery(query, replies, callTool);
    }

    /** `get_resource`, up to reading it: the session serving `uri`. An
        unregistered `papers://` URI falls back to the session of some
        registered `papers://` URI; otherwise there is none. The scan's
        order is the map's, which keeps no insertion order. */
    method GetResource(uri: string) returns (s: Option<SessionId>)
      ensures uri in sessions ==> s == Some(sessions[uri])
      ensures uri !in sessions && !StartsWith(uri, PapersScheme) ==> s == None
      ensures uri !in sessions && StartsWith(uri, PapersScheme) ==>
        (s.Some? <==> exists k :: k in sessions && StartsWith(k, PapersScheme))
      ensures uri !in sessions && s.Some? ==>
        exists k :: k in sessions && StartsWith(k, PapersScheme) && sessions[k] == s.value
    {
      if uri in sessions {
        return Some(sessions[uri]);
      }
      if !StartsWith(uri, PapersScheme) {
        return None;
      }
      var unseen := sessions.Keys;
      while unseen != {}
        invariant unseen <= sessions.Keys
        invariant forall k :: k in sessions && k !in unseen ==> !StartsWith(k, PapersScheme)
        decreases |unseen|
      {
        var k :| k in unseen;
        if StartsWith(k, PapersScheme) {
          return Some(sessions[k]);
        }
        unseen := unseen - {k};
      }
      return None;
    }

    /** `execute_prompt`: look the prompt up, add the user id when absent,
        fetch the prompt through `getPrompt` and run its text as a query.
        Exceptions raised on the way are caught and reported. */
    method ExecutePrompt(promptName: string, args: map<string, string>,
                         getPrompt: (SessionId, string, map<string, string>) -> PromptReply,
                         replies: seq<ModelReply>, callTool: (nat, ToolCall) -> ToolOutcome)
      returns (outcome: PromptOutcome)
      modifies this`chatHistory
      ensures promptName !in sessions ==> outcome == PromptNotFound && chatHistory == old(chatHistory)
      ensures promptName in sessions ==>
        match getPrompt(sessions[promptName], promptName, PromptArguments(args, userId))
        case PromptText(text) =>
          var r := Query(old(chatHistory), text, replies, Env(sessions, userId, callTool));
          outcome == PromptRan(r.outcome) && chatHistory == r.history
        case NoMessages => outcome == PromptNotRun && chatHistory == old(chatHistory)
        case PromptRaised(e) => outcome == PromptFailed(e) && chatHistory == old(chatHistory)
    {
      if promptName !in sessions {
        return PromptNotFound;
      }
      var session := sessions[promptName];
      var promptArgs := args;
      if IsSet(userId) && "user_id" !in promptArgs {
        promptArgs := promptArgs["user_id" := userId.value];
      }
      var reply := getPrompt(session, promptName, promptArgs);
      match reply {
        case PromptText(text) =>
          var r, _ := ProcessQuery(text, replies, callTool);
          outcome := PromptRan(r);
        case NoMessages =>
          outcome := PromptNotRun;
        case PromptRaised(e) =>
          outcome := PromptFailed(e);
      }
    }
  }
}
