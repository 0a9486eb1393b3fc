/** The agent: a loop that sends the conversation to a model, runs the tool
    calls the model asks for on a tool server, feeds the results back and
    stops when a round asks for no tool, or after a bounded number of rounds.
    The model's transport is an oracle indexed by round. */
module Agent {
  import opened Model
  import opened Mcp

  const MaxIterationsReached := "Max iterations reached in agent loop"
  const NoServerConfigured := "No MCP server configured"
  const ListFailurePrefix := "Failed to list tools from MCP server: "

  /** The agent's settings: the round bound and the optional tool server. */
  datatype Agent = Agent(maxIterations: nat, server: Option<Endpoint>)

  /** A new agent allows ten rounds and has no tool server. */
  function New(): (a: Agent)
    ensures a.maxIterations == 10 && a.server.None?
  {
    Agent(10, None)
  }

  function WithServer(a: Agent, s: Endpoint): (r: Agent)
    ensures r.server == Some(s) && r.maxIterations == a.maxIterations
  {
    a.(server := Some(s))
  }

  function WithMaxIterations(a: Agent, n: nat): (r: Agent)
    ensures r.maxIterations == n && r.server == a.server
  {
    a.(maxIterations := n)
  }

  /** The model's answer to the conversation and tools sent in a round. */
  type Transport = (nat, seq<Message>, seq<Tool>) -> Result<Response, ClientError>

  /** The model's streamed answer in a round: the stream fails to open, or
      yields responses and errors in order. */
  type StreamTransport = (nat, seq<Message>, seq<Tool>) -> Result<seq<Result<Response, ClientError>>, ClientError>

  /** The response the agent starts from: no messages, no usage, unfinished. */
  const Start: Response := Response([], NoUsage, Unfinished)

  // ----- Tool catalogue -----

  function ToolValues(ts: seq<Served<Tool>>): (r: seq<Tool>)
    ensures |r| == |ts| && forall k :: 0 <= k < |ts| ==> r[k] == ts[k].value
  {
    seq(|ts|, k requires 0 <= k < |ts| => ts[k].value)
  }

  /** The tools offered in every round of a chat: none without a server, and
      a listing failure ends the chat before any request. */
  function ChatCatalogue(server: Option<Endpoint>): (r: Result<seq<Tool>, ClientError>)
    ensures server.None? ==> r == Ok([])
    ensures server.Some? && server.value.listTools.Err? ==>
              r == Err(ProviderError(ListFailurePrefix + Describe(server.value.listTools.error)))
    ensures server.Some? && server.value.listTools.Ok? ==> r == Ok(ToolValues(server.value.listTools.value))
  {
    match server
    case None => Ok([])
    case Some(s) =>
      match s.listTools
      case Err(e) => Err(ProviderError(ListFailurePrefix + Describe(e)))
      case Ok(ts) => Ok(ToolValues(ts))
  }

  /** The tools offered in every round of a streamed chat: a listing failure
      is tolerated and leaves none. */
  function StreamCatalogue(server: Option<Endpoint>): (r: seq<Tool>)
    ensures server.None? || server.value.listTools.Err? ==> r == []
    ensures server.Some? && server.value.listTools.Ok? ==> ChatCatalogue(server) == Ok(r)
  {
    match server
    case None => []
    case Some(s) =>
      match s.listTools
      case Err(_) => []
      case Ok(ts) => ToolValues(ts)
  }

  // ----- Running one tool call -----

  function ErrorReport(e: McpError): Json {
    Object([("error", Json.String("Error: " + Describe(e)))])
  }

  /** The part that answers a tool call: the server's part with the call's id
      when it is a function response, or a finished error report when the
      call failed. */
  function ToolResult(s: Endpoint, id: Option<string>, name: string, args: Json): (r: Part)
    ensures s.callTool(name, args).Err? ==>
              r == FunctionResponse(id, name, ErrorReport(s.callTool(name, args).error), [], true)
    ensures s.callTool(name, args).Ok? && !s.callTool(name, args).value.FunctionResponse? ==>
              r == s.callTool(name, args).value
  {
    match s.callTool(name, args)
    case Err(e) => FunctionResponse(id, name, ErrorReport(e), [], true)
    case Ok(p) => if p.FunctionResponse? then p.(id := id) else p
  }

  /** A failed call does not end the loop: it is answered like any other, and
      every function response answering a call carries that call's id. */
  lemma ToolResultAnswersTheCall(s: Endpoint, id: Option<string>, name: string, args: Json)
    ensures var r := ToolResult(s, id, name, args);
            && (s.callTool(name, args).Err? || s.callTool(name, args).value.FunctionResponse? ==>
                  r.FunctionResponse? && r.id == id)
            && (s.callTool(name, args).Err? ==> r.name == name && r.finished && r.parts == [])
            && (s.callTool(name, args).Ok? && s.callTool(name, args).value.FunctionResponse? ==>
                  r.response == s.callTool(name, args).value.response && r.parts == s.callTool(name, args).value.parts)
  {
  }

  // ----- One round of a chat -----

  predicate IsCall(p: Part) {
    p.FunctionCall?
  }

  predicate HasCall(ms: seq<Message>) {
    exists k, j :: 0 <= k < |ms| && 0 <= j < |ms[k].parts| && ms[k].parts[j].FunctionCall?
  }

  /** The answers to a message's calls, one user message each, in order; a
      call without a server ends the chat. */
  function Replies(server: Option<Endpoint>, ps: seq<Part>): Result<seq<Message>, ClientError> {
    if ps == [] then Ok([])
    else if ps[0].FunctionCall? then
      if server.None? then Err(Config(NoServerConfigured))
      else Extend([Message.User([ToolResult(server.value, ps[0].id, ps[0].name, ps[0].arguments)])], Replies(server, ps[1..]))
    else Replies(server, ps[1..])
  }

  /** A round's messages, each followed by the answers to its calls. */
  function Expand(server: Option<Endpoint>, ms: seq<Message>): Result<seq<Message>, ClientError> {
    if ms == [] then Ok([])
    else match Replies(server, ms[0].parts)
      case Err(e) => Err(e)
      case Ok(rs) => Extend([ms[0]] + rs, Expand(server, ms[1..]))
  }

  /** The calls of the parts, in order. */
  function CallsOf(ps: seq<Part>): (r: seq<Part>)
    ensures forall k :: 0 <= k < |r| ==> r[k].FunctionCall?
    ensures |r| == Count(ps, IsCall)
  {
    if ps == [] then [] else (if ps[0].FunctionCall? then [ps[0]] else []) + CallsOf(ps[1..])
  }

  function Answer(s: Endpoint, c: Part): Message
    requires c.FunctionCall?
  {
    Message.User([ToolResult(s, c.id, c.name, c.arguments)])
  }

  /** With a server, a message's answers are one user message per call, each
      holding that call's result, in the order of the calls. */
  lemma {:induction false} RepliesAnswerEachCall(s: Endpoint, ps: seq<Part>)
    ensures Replies(Some(s), ps).Ok?
    ensures |Replies(Some(s), ps).value| == |CallsOf(ps)|
    ensures forall k :: 0 <= k < |CallsOf(ps)| ==> Replies(Some(s), ps).value[k] == Answer(s, CallsOf(ps)[k])
    decreases |ps|
  {
    if ps != [] {
      RepliesAnswerEachCall(s, ps[1..]);
    }
  }

  /** Without a server, a call ends the chat with a configuration error. */
  lemma {:induction false} RepliesNeedAServer(ps: seq<Part>)
    ensures Replies(None, ps) == (if Count(ps, IsCall) == 0 then Ok([]) else Err(Config(NoServerConfigured)))
    decreases |ps|
  {
    if ps != [] {
      RepliesNeedAServer(ps[1..]);
    }
  }

  /** A round without calls is passed on unchanged, whatever the server. */
  lemma {:induction false} ExpandWithoutCalls(server: Option<Endpoint>, ms: seq<Message>)
    requires !HasCall(ms)
    ensures Expand(server, ms) == Ok(ms)
    decreases |ms|
  {
    if ms != [] {
      assert forall j :: 0 <= j < |ms[0].parts| ==> !ms[0].parts[j].FunctionCall?;
      NoCallsNoReplies(server, ms[0].parts);
      assert !HasCall(ms[1..]) by {
        forall k, j | 0 <= k < |ms[1..]| && 0 <= j < |ms[1..][k].parts|
          ensures !ms[1..][k].parts[j].FunctionCall?
        {
          assert ms[1..][k] == ms[k + 1];
        }
      }
      ExpandWithoutCalls(server, ms[1..]);
      assert [ms[0]] + [] + ms[1..] == ms;
    }
  }

  lemma {:induction false} NoCallsNoReplies(server: Option<Endpoint>, ps: seq<Part>)
    requires forall j :: 0 <= j < |ps| ==> !ps[j].FunctionCall?
    ensures Replies(server, ps) == Ok([])
    decreases |ps|
  {
    if ps != [] {
      NoCallsNoReplies(server, ps[1..]);
    }
  }

  /** With a server, a round always expands: it keeps every message and adds
      one answer per call. */
  lemma {:induction false} ExpandWithServer(s: Endpoint, ms: seq<Message>)
    ensures Expand(Some(s), ms).Ok?
    ensures |Expand(Some(s), ms).value| == |ms| + CallTotal(ms)
    decreases |ms|
  {
    if ms != [] {
      RepliesAnswerEachCall(s, ms[0].parts);
      ExpandWithServer(s, ms[1..]);
    }
  }

  function CallTotal(ms: seq<Message>): nat {
    if ms == [] then 0 else Count(ms[0].parts, IsCall) + CallTotal(ms[1..])
  }

  // ----- The chat loop -----

  /** The chat from a round on: each round sends the history, adds the
      round's usage, takes its finish reason, appends its messages with the
      answers to their calls, and ends when a round has no call. */
  function ChatLoop(request: Transport, tools: seq<Tool>, server: Option<Endpoint>, maxIterations: nat,
                    round: nat, history: seq<Message>, acc: Response): Result<Response, ClientError>
    decreases maxIterations - round
  {
    if round >= maxIterations then Err(Config(MaxIterationsReached))
    else match request(round, history, tools)
      case Err(e) => Err(e)
      case Ok(resp) =>
        match Expand(server, resp.data)
        case Err(e) => Err(e)
        case Ok(out) =>
          var next := Response(acc.data + out, Add(acc.usage, resp.usage), resp.finish);
          if !HasCall(resp.data) then Ok(next)
          else ChatLoop(request, tools, server, maxIterations, round + 1, history + out, next)
  }

  function Chat(agent: Agent, request: Transport, history: seq<Message>): Result<Response, ClientError> {
    match ChatCatalogue(agent.server)
    case Err(e) => Err(e)
    case Ok(tools) => ChatLoop(request, tools, agent.server, agent.maxIterations, 0, history, Start)
  }

  /** Answers a message's calls, pushing each answer to both the history and
      the response; a call without a server is an error. */
  method AnswerCalls(server: Option<Endpoint>, ps: seq<Part>, messages: seq<Message>, data: seq<Message>)
    returns (error: Option<ClientError>, messages': seq<Message>, data': seq<Message>, executed: bool)
    ensures Replies(server, ps).Err? <==> error.Some?
    ensures Replies(server, ps).Err? ==> error == Some(Replies(server, ps).error)
    ensures Replies(server, ps).Ok? ==> messages' == messages + Replies(server, ps).value && data' == data + Replies(server, ps).value
    ensures executed <==> exists l :: 0 <= l < |ps| && ps[l].FunctionCall?
  {
    messages', data', executed := messages, data, false;
    ghost var added: seq<Message> := [];
    var j := 0;
    assert ps[0..] == ps;
    match Replies(server, ps) {
      case Ok(xs) => assert [] + xs == xs;
      case Err(_) =>
    }
    while j < |ps|
      invariant 0 <= j <= |ps|
      invariant messages' == messages + added && data' == data + added
      invariant Extend(added, Replies(server, ps[j..])) == Replies(server, ps)
      invariant executed <==> exists l :: 0 <= l < j && ps[l].FunctionCall?
    {
      assert ps[j..][0] == ps[j] && ps[j..][1..] == ps[j + 1..];
      if ps[j].FunctionCall? {
        executed := true;
        if server.None? {
          return Some(Config(NoServerConfigured)), messages', data', true;
        }
        var answer := Message.User([ToolResult(server.value, ps[j].id, ps[j].name, ps[j].arguments)]);
        ExtendAssoc(added, [answer], Replies(server, ps[j + 1..]));
        messages' := messages' + [answer];
        data' := data' + [answer];
        added := added + [answer];
      }
      j := j + 1;
    }
    assert ps[j..] == [];
    assert added + [] == added;
    error := None;
  }

  /** One message of a round: it is pushed to history and output, followed by
      the answers to its calls. */
  method ExpandOne(server: Option<Endpoint>, msg: Message, messages: seq<Message>, data: seq<Message>)
    returns (error: Option<ClientError>, messages': seq<Message>, data': seq<Message>, executed: bool)
    ensures Replies(server, msg.parts).Err? <==> error.Some?
    ensures error.Some? ==> error == Some(Replies(server, msg.parts).error)
    ensures Replies(server, msg.parts).Ok? ==>
              messages' == messages + ([msg] + Replies(server, msg.parts).value)
              && data' == data + ([msg] + Replies(server, msg.parts).value)
    ensures executed <==> Count(msg.parts, IsCall) > 0
  {
    error, messages', data', executed := AnswerCalls(server, msg.parts, messages + [msg], data + [msg]);
    SomeCall(msg.parts);
    if error.None? {
      assert messages + [msg] + Replies(server, msg.parts).value == messages + ([msg] + Replies(server, msg.parts).value);
      assert data + [msg] + Replies(server, msg.parts).value == data + ([msg] + Replies(server, msg.parts).value);
    }
  }

  /** Pushes a round's messages, each followed by the answers to its calls,
      to both the history and the response. */
  method ExpandRound(server: Option<Endpoint>, ms: seq<Message>, messages: seq<Message>, data: seq<Message>)
    returns (error: Option<ClientError>, messages': seq<Message>, data': seq<Message>, executed: bool)
    ensures Expand(server, ms).Err? <==> error.Some?
    ensures Expand(server, ms).Err? ==> error == Some(Expand(server, ms).error)
    ensures Expand(server, ms).Ok? ==> messages' == messages + Expand(server, ms).value && data' == data + Expand(server, ms).value
    ensures error.None? ==> (executed <==> HasCall(ms))
  {
    messages', data', executed := messages, data, false;
    ghost var added: seq<Message> := [];
    ghost var calls: nat := 0;
    var i := 0;
    assert ms[0..] == ms;
    match Expand(server, ms) {
      case Ok(xs) => assert [] + xs == xs;
      case Err(_) =>
    }
    while i < |ms|
      invariant 0 <= i <= |ms|
      invariant messages' == messages + added && data' == data + added
      invariant Extend(added, Expand(server, ms[i..])) == Expand(server, ms)
      invariant calls + CallTotal(ms[i..]) == CallTotal(ms)
      invariant executed <==> calls > 0
    {
      ExpandAt(server, ms, i);
      var err, found;
      err, messages', data', found := ExpandOne(server, ms[i], messages', data');
      if err.Some? {
        return err, messages', data', true;
      }
      ghost var piece := [ms[i]] + Replies(server, ms[i].parts).value;
      ExtendAssoc(added, piece, Expand(server, ms[i + 1..]));
      added := added + piece;
      executed := executed || found;
      calls := calls + Count(ms[i].parts, IsCall);
      i := i + 1;
    }
    assert ms[i..] == [];
    CallTotalCounts(ms);
    assert added + [] == added;
    error := None;
  }

  /** `Expand` unfolded at position `i`. */
  lemma ExpandAt(server: Option<Endpoint>, ms: seq<Message>, i: nat)
    requires i < |ms|
    ensures Expand(server, ms[i..]) == match Replies(server, ms[i].parts)
                                      case Err(e) => Err(e)
                                      case Ok(rs) => Extend([ms[i]] + rs, Expand(server, ms[i + 1..]))
    ensures CallTotal(ms[i..]) == Count(ms[i].parts, IsCall) + CallTotal(ms[i + 1..])
  {
    assert ms[i..][0] == ms[i] && ms[i..][1..] == ms[i + 1..];
  }

  lemma {:induction false} SomeCall(ps: seq<Part>)
    ensures Count(ps, IsCall) > 0 <==> exists l :: 0 <= l < |ps| && ps[l].FunctionCall?
    decreases |ps|
  {
    if ps != [] {
      SomeCall(ps[1..]);
      if Count(ps[1..], IsCall) > 0 {
        var l :| 0 <= l < |ps[1..]| && ps[1..][l].FunctionCall?;
        assert ps[l + 1].FunctionCall?;
      }
      if exists l :: 0 <= l < |ps| && ps[l].FunctionCall? {
        var l :| 0 <= l < |ps| && ps[l].FunctionCall?;
        if l > 0 { assert ps[1..][l - 1].FunctionCall?; }
      }
    }
  }

  /** A round holds a call exactly when its call total is positive. */
  lemma {:induction false} CallTotalCounts(ms: seq<Message>)
    ensures HasCall(ms) <==> CallTotal(ms) > 0
    decreases |ms|
  {
    if ms != [] {
      CallTotalCounts(ms[1..]);
      SomeCall(ms[0].parts);
      if HasCall(ms[1..]) {
        var k, j :| 0 <= k < |ms[1..]| && 0 <= j < |ms[1..][k].parts| && ms[1..][k].parts[j].FunctionCall?;
        assert ms[k + 1].parts[j].FunctionCall?;
      }
      if HasCall(ms) {
        var k, j :| 0 <= k < |ms| && 0 <= j < |ms[k].parts| && ms[k].parts[j].FunctionCall?;
        if k > 0 { assert ms[1..][k - 1].parts[j].FunctionCall?; }
      }
    }
  }


  /** One round of the chat, unfolded. */
  lemma ChatRoundStep(request: Transport, tools: seq<Tool>, server: Option<Endpoint>, maxIterations: nat,
                      round: nat, history: seq<Message>, acc: Response, resp: Response)
    requires round < maxIterations && request(round, history, tools) == Ok(resp)
    ensures Expand(server, resp.data).Err? ==>
              ChatLoop(request, tools, server, maxIterations, round, history, acc) == Err(Expand(server, resp.data).error)
    ensures Expand(server, resp.data).Ok? ==>
              var out := Expand(server, resp.data).value;
              var next := Response(acc.data + out, Add(acc.usage, resp.usage), resp.finish);
              ChatLoop(request, tools, server, maxIterations, round, history, acc) ==
                if !HasCall(resp.data) then Ok(next)
                else ChatLoop(request, tools, server, maxIterations, round + 1, history + out, next)
  {
  }

  /** The chat loop, pushing each message and each answer to both the history
      and the response as they come. */
  method RunChat(agent: Agent, request: Transport, history: seq<Message>) returns (r: Result<Response, ClientError>)
    ensures r == Chat(agent, request, history)
  {
    var tools: seq<Tool> := [];
    if agent.server.Some? {
      var listed := agent.server.value.listTools;
      if listed.Err? {
        return Err(ProviderError(ListFailurePrefix + Describe(listed.error)));
      }
      tools := ToolValues(listed.value);
    }
    var server := agent.server;
    var messages := history;
    var data: seq<Message> := [];
    var usage := NoUsage;
    var finish := Unfinished;
    var iteration := 0;
    while iteration < agent.maxIterations
      invariant ChatLoop(request, tools, server, agent.maxIterations, iteration, messages, Response(data, usage, finish))
                == Chat(agent, request, history)
      decreases agent.maxIterations - iteration
    {
      var response := request(iteration, messages, tools);
      if response.Err? {
        return Err(response.error);
      }
      var resp := response.value;
      ChatRoundStep(request, tools, server, agent.maxIterations, iteration, messages, Response(data, usage, finish), resp);
      usage := Add(usage, resp.usage);
      finish := resp.finish;
      var error, executed;
      error, messages, data, executed := ExpandRound(server, resp.data, messages, data);
      if error.Some? {
        return Err(error.value);
      }
      if !executed {
        return Ok(Response(data, usage, finish));
      }
      iteration := iteration + 1;
    }
    return Err(Config(MaxIterationsReached));
  }

  /** A round whose messages hold no call ends the chat with them as they are. */
  lemma ChatStopsWithoutCalls(request: Transport, tools: seq<Tool>, server: Option<Endpoint>, maxIterations: nat,
                              round: nat, history: seq<Message>, acc: Response)
    requires round < maxIterations && request(round, history, tools).Ok?
    requires !HasCall(request(round, history, tools).value.data)
    ensures var resp := request(round, history, tools).value;
            ChatLoop(request, tools, server, maxIterations, round, history, acc)
              == Ok(Response(acc.data + resp.data, Add(acc.usage, resp.usage), resp.finish))
  {
    ExpandWithoutCalls(server, request(round, history, tools).value.data);
  }

  /** A model that asks for a tool in every round exhausts the bound: the
      chat ends with the iteration error, however many rounds remain. */
  lemma {:induction false} ChatExhaustsTheBound(request: Transport, tools: seq<Tool>, s: Endpoint, maxIterations: nat,
                                                round: nat, history: seq<Message>, acc: Response)
    requires forall r, h :: round <= r < maxIterations ==>
               request(r, h, tools).Ok? && HasCall(request(r, h, tools).value.data)
    ensures ChatLoop(request, tools, Some(s), maxIterations, round, history, acc) == Err(Config(MaxIterationsReached))
    decreases maxIterations - round
  {
    if round < maxIterations {
      var resp := request(round, history, tools).value;
      ExpandWithServer(s, resp.data);
      var out := Expand(Some(s), resp.data).value;
      ChatExhaustsTheBound(request, tools, s, maxIterations, round + 1, history + out,
                           Response(acc.data + out, Add(acc.usage, resp.usage), resp.finish));
    }
  }

  /** The chat reads the transport only in rounds below the bound: two
      transports that agree there give the same result. */
  lemma {:induction false} ChatMakesAtMostBoundRequests(r1: Transport, r2: Transport, tools: seq<Tool>, server: Option<Endpoint>,
                                                        maxIterations: nat, round: nat, history: seq<Message>, acc: Response)
    requires forall r, h :: round <= r < maxIterations ==> r1(r, h, tools) == r2(r, h, tools)
    ensures ChatLoop(r1, tools, server, maxIterations, round, history, acc) == ChatLoop(r2, tools, server, maxIterations, round, history, acc)
    decreases maxIterations - round
  {
    if round < maxIterations && r1(round, history, tools).Ok? {
      var resp := r1(round, history, tools).value;
      if Expand(server, resp.data).Ok? {
        var out := Expand(server, resp.data).value;
        ChatMakesAtMostBoundRequests(r1, r2, tools, server, maxIterations, round + 1, history + out,
                                     Response(acc.data + out, Add(acc.usage, resp.usage), resp.finish));
      }
    }
  }

  /** A chat's result keeps everything gathered before: the messages as a
      prefix, and every usage counter present and no lower. */
  lemma {:induction false} ChatResultExtends(request: Transport, tools: seq<Tool>, server: Option<Endpoint>, maxIterations: nat,
                                             round: nat, history: seq<Message>, acc: Response)
    requires ChatLoop(request, tools, server, maxIterations, round, history, acc).Ok?
    ensures var r := ChatLoop(request, tools, server, maxIterations, round, history, acc).value;
            && |acc.data| <= |r.data| && r.data[..|acc.data|] == acc.data
            && (acc.usage.promptTokens.Some? ==> r.usage.promptTokens.Some? && r.usage.promptTokens.value >= acc.usage.promptTokens.value)
            && (acc.usage.completionTokens.Some? ==> r.usage.completionTokens.Some? && r.usage.completionTokens.value >= acc.usage.completionTokens.value)
    decreases maxIterations - round
  {
    var resp := request(round, history, tools).value;
    var out := Expand(server, resp.data).value;
    var next := Response(acc.data + out, Add(acc.usage, resp.usage), resp.finish);
    AddMonotone(acc.usage, resp.usage);
    assert next.data[..|acc.data|] == acc.data;
    if HasCall(resp.data) {
      ChatResultExtends(request, tools, server, maxIterations, round + 1, history + out, next);
      var r := ChatLoop(request, tools, server, maxIterations, round + 1, history + out, next).value;
      assert r.data[..|acc.data|] == r.data[..|next.data|][..|acc.data|];
    }
  }

  /** A chat with a bound of zero rounds sends nothing and fails. */
  lemma ChatWithoutRounds(agent: Agent, request: Transport, history: seq<Message>)
    requires agent.maxIterations == 0
    ensures Chat(agent, request, history) == match ChatCatalogue(agent.server)
                                             case Err(e) => Err(e)
                                             case Ok(_) => Err(Config(MaxIterationsReached))
  {
  }

  // ----- The streamed chat -----

  /** The snapshot a streamed response gives: the messages before the round
      followed by the response's, usage before the round plus the response's. */
  function Snap(base: Response, r: Response): (s: Response)
    ensures |s.data| == |base.data| + |r.data| && s.data[..|base.data|] == base.data && s.data[|base.data|..] == r.data
    ensures s.usage == Add(base.usage, r.usage) && s.finish == r.finish
  {
    var s := Response(base.data + r.data, Add(base.usage, r.usage), r.finish);
    assert s.data[..|base.data|] == base.data;
    s
  }

  /** The snapshots of one round's stream, up to its first error. */
  function RoundOutcome(base: Response, items: seq<Result<Response, ClientError>>): (o: StreamOutcome)
    ensures |o.snapshots| <= |items|
    ensures forall k :: 0 <= k < |o.snapshots| ==> items[k].Ok? && o.snapshots[k] == Snap(base, items[k].value)
    ensures o.error.Some? <==> |o.snapshots| < |items|
    ensures o.error.Some? ==> items[|o.snapshots|] == Err(o.error.value)
  {
    if items == [] then StreamOutcome([], None)
    else match items[0]
      case Err(e) => StreamOutcome([], Some(e))
      case Ok(r) => Prepend([Snap(base, r)], RoundOutcome(base, items[1..]))
  }

  /** The state after a round's stream: its last snapshot, or the state
      before when it yielded nothing. */
  function Latest(base: Response, snaps: seq<Response>): Response {
    if snaps == [] then base else snaps[|snaps| - 1]
  }

  function LastParts(ms: seq<Message>): seq<Part> {
    if ms == [] then [] else ms[|ms| - 1].parts
  }

  predicate IsFinishedCall(p: Part) {
    p.FunctionCall? && p.finished
  }

  predicate HasFinishedCall(ps: seq<Part>) {
    exists j :: 0 <= j < |ps| && IsFinishedCall(ps[j])
  }

  /** The answers to the finished calls among the parts, in order; a finished
      call without a server ends the stream. */
  function StreamReplies(server: Option<Endpoint>, ps: seq<Part>): Result<seq<Part>, ClientError> {
    if ps == [] then Ok([])
    else if IsFinishedCall(ps[0]) then
      if server.None? then Err(Config(NoServerConfigured))
      else Extend([ToolResult(server.value, ps[0].id, ps[0].name, ps[0].arguments)], StreamReplies(server, ps[1..]))
    else StreamReplies(server, ps[1..])
  }

  /** The streamed chat from a round on. After a round's stream the history
      gains the round's new messages; then only the last message's finished
      calls run, their answers go in one user message, and a further
      snapshot is yielded. A round with none ends the stream. */
  function StreamLoop(stream: StreamTransport, tools: seq<Tool>, server: Option<Endpoint>, maxIterations: nat,
                      round: nat, history: seq<Message>, acc: Response): StreamOutcome
    decreases maxIterations - round
  {
    if round >= maxIterations then StreamOutcome([], Some(Config(MaxIterationsReached)))
    else match stream(round, history, tools)
      case Err(e) => StreamOutcome([], Some(e))
      case Ok(items) =>
        var o := RoundOutcome(acc, items);
        if o.error.Some? then o
        else
          var cur := Latest(acc, o.snapshots);
          assert |cur.data| >= |acc.data|;
          var grown := history + cur.data[|acc.data|..];
          var ps := LastParts(cur.data);
          match StreamReplies(server, ps)
          case Err(e) => StreamOutcome(o.snapshots, Some(e))
          case Ok(answers) =>
            if !HasFinishedCall(ps) then o
            else
              var toolMessage := Message.User(answers);
              var next := cur.(data := cur.data + [toolMessage]);
              Prepend(o.snapshots + [next],
                      StreamLoop(stream, tools, server, maxIterations, round + 1, grown + [toolMessage], next))
  }

  function ChatStream(agent: Agent, stream: StreamTransport, history: seq<Message>): StreamOutcome {
    StreamLoop(stream, StreamCatalogue(agent.server), agent.server, agent.maxIterations, 0, history, Start)
  }

  /** A round that ends the streamed chat: its stream failed, or it left no
      finished call, or a finished call found no server. */
  lemma StreamRoundEnds(stream: StreamTransport, tools: seq<Tool>, server: Option<Endpoint>, maxIterations: nat,
                        round: nat, history: seq<Message>, acc: Response, items: seq<Result<Response, ClientError>>,
                        snaps: seq<Response>, error: Option<ClientError>)
    requires round < maxIterations && stream(round, history, tools) == Ok(items)
    requires RoundOutcome(acc, items) == StreamOutcome(snaps, error)
    requires error.None? ==> var ps := LastParts(Latest(acc, snaps).data);
                             StreamReplies(server, ps).Err? || !HasFinishedCall(ps)
    ensures var ps := LastParts(Latest(acc, snaps).data);
            StreamLoop(stream, tools, server, maxIterations, round, history, acc) ==
              if error.Some? then StreamOutcome(snaps, error)
              else if StreamReplies(server, ps).Err? then StreamOutcome(snaps, Some(StreamReplies(server, ps).error))
              else StreamOutcome(snaps, None)
  {
  }

  /** A round whose last message holds finished calls: its snapshots, the
      snapshot with the answers, and the next round from there. */
  lemma StreamRoundContinues(stream: StreamTransport, tools: seq<Tool>, server: Option<Endpoint>, maxIterations: nat,
                             round: nat, history: seq<Message>, acc: Response, items: seq<Result<Response, ClientError>>,
                             snaps: seq<Response>, answers: seq<Part>)
    requires round < maxIterations && stream(round, history, tools) == Ok(items)
    requires RoundOutcome(acc, items) == StreamOutcome(snaps, None)
    requires StreamReplies(server, LastParts(Latest(acc, snaps).data)) == Ok(answers)
    requires HasFinishedCall(LastParts(Latest(acc, snaps).data))
    ensures |acc.data| <= |Latest(acc, snaps).data|
    ensures var cur := Latest(acc, snaps);
            var next := cur.(data := cur.data + [Message.User(answers)]);
            StreamLoop(stream, tools, server, maxIterations, round, history, acc) ==
              Prepend(snaps + [next], StreamLoop(stream, tools, server, maxIterations, round + 1,
                                                 history + cur.data[|acc.data|..] + [Message.User(answers)], next))
  {
  }

  /** One step of a round's stream, unfolded at position `k`. */
  lemma RoundOutcomeAt(base: Response, items: seq<Result<Response, ClientError>>, k: nat)
    requires k < |items|
    ensures items[k].Err? ==> RoundOutcome(base, items[k..]) == StreamOutcome([], Some(items[k].error))
    ensures items[k].Ok? ==>
              RoundOutcome(base, items[k..]) == Prepend([Snap(base, items[k].value)], RoundOutcome(base, items[k + 1..]))
  {
    assert items[k..][0] == items[k] && items[k..][1..] == items[k + 1..];
  }

  /** One round's stream: each response replaces what the round has added so
      far and is yielded; the first error ends the round. */
  method AbsorbStream(data0: seq<Message>, usage0: Usage, finish0: FinishReason, items: seq<Result<Response, ClientError>>)
    returns (data: seq<Message>, usage: Usage, finish: FinishReason, snaps: seq<Response>, error: Option<ClientError>)
    ensures RoundOutcome(Response(data0, usage0, finish0), items) == StreamOutcome(snaps, error)
    ensures error.None? ==> Response(data, usage, finish) == Latest(Response(data0, usage0, finish0), snaps)
  {
    ghost var acc := Response(data0, usage0, finish0);
    data, usage, finish := data0, usage0, finish0;
    snaps := [];
    var baseLen := |data0|;
    var k := 0;
    assert items[0..] == items;
    assert Prepend([], RoundOutcome(acc, items)) == RoundOutcome(acc, items);
    while k < |items|
      invariant 0 <= k <= |items|
      invariant Prepend(snaps, RoundOutcome(acc, items[k..])) == RoundOutcome(acc, items)
      invariant Response(data, usage, finish) == Latest(acc, snaps)
      invariant baseLen == |data0| <= |data| && data[..baseLen] == data0
    {
      RoundOutcomeAt(acc, items, k);
      if items[k].Err? {
        assert snaps + [] == snaps;
        return data, usage, finish, snaps, Some(items[k].error);
      }
      var response := items[k].value;
      data := data[..baseLen] + response.data;
      usage := Add(usage0, response.usage);
      finish := response.finish;
      assert Response(data, usage, finish) == Snap(acc, response);
      PrependAssoc(snaps, [Snap(acc, response)], RoundOutcome(acc, items[k + 1..]));
      snaps := snaps + [Response(data, usage, finish)];
      k := k + 1;
    }
    assert items[k..] == [];
    assert snaps + [] == snaps;
    error := None;
  }

  /** Pushes the messages the round added to the history. */
  method PushNew(messages: seq<Message>, data: seq<Message>, baseLen: nat) returns (grown: seq<Message>)
    requires baseLen <= |data|
    ensures grown == messages + data[baseLen..]
  {
    grown := messages;
    if |data| > baseLen {
      var i := baseLen;
      while i < |data|
        invariant baseLen <= i <= |data|
        invariant grown == messages + data[baseLen..i]
      {
        assert data[baseLen..i + 1] == data[baseLen..i] + [data[i]];
        grown := grown + [data[i]];
        i := i + 1;
      }
    } else {
      assert data[baseLen..] == [];
      assert messages + [] == messages;
    }
  }

  /** Runs the finished calls among the parts, collecting their answers; a
      finished call without a server is an error. */
  method AnswerFinishedCalls(server: Option<Endpoint>, ps: seq<Part>) returns (answers: Result<seq<Part>, ClientError>, executed: bool)
    ensures answers == StreamReplies(server, ps)
    ensures executed <==> HasFinishedCall(ps)
  {
    executed := false;
    var collected: seq<Part> := [];
    var j := 0;
    assert ps[0..] == ps;
    match StreamReplies(server, ps) {
      case Ok(xs) => assert [] + xs == xs;
      case Err(_) =>
    }
    while j < |ps|
      invariant 0 <= j <= |ps|
      invariant Extend(collected, StreamReplies(server, ps[j..])) == StreamReplies(server, ps)
      invariant executed <==> exists l :: 0 <= l < j && IsFinishedCall(ps[l])
    {
      assert ps[j..][0] == ps[j] && ps[j..][1..] == ps[j + 1..];
      if ps[j].FunctionCall? && ps[j].finished {
        executed := true;
        if server.None? {
          return Err(Config(NoServerConfigured)), executed;
        }
        var answer := ToolResult(server.value, ps[j].id, ps[j].name, ps[j].arguments);
        ExtendAssoc(collected, [answer], StreamReplies(server, ps[j + 1..]));
        collected := collected + [answer];
      }
      j := j + 1;
    }
    assert ps[j..] == [];
    assert collected + [] == collected;
    answers := Ok(collected);
  }

  /** One round of the streamed chat: open the stream, absorb it, push the
      round's messages to the history and answer the last message's finished
      calls. Either the chat ends here with `snaps` and `error`, or it goes on
      from the new state after yielding `snaps`. */
  method StreamRound(stream: StreamTransport, tools: seq<Tool>, server: Option<Endpoint>, maxIterations: nat,
                     iteration: nat, messages: seq<Message>, data: seq<Message>, usage: Usage, finish: FinishReason)
    returns (done: bool, snaps: seq<Response>, error: Option<ClientError>,
             messages': seq<Message>, data': seq<Message>, usage': Usage, finish': FinishReason)
    requires iteration < maxIterations
    ensures done ==> StreamLoop(stream, tools, server, maxIterations, iteration, messages, Response(data, usage, finish))
                     == StreamOutcome(snaps, error)
    ensures !done ==> StreamLoop(stream, tools, server, maxIterations, iteration, messages, Response(data, usage, finish))
                      == Prepend(snaps, StreamLoop(stream, tools, server, maxIterations, iteration + 1, messages', Response(data', usage', finish')))
  {
    messages', data', usage', finish' := messages, data, usage, finish;
    var started := stream(iteration, messages, tools);
    if started.Err? {
      return true, [], Some(started.error), messages', data', usage', finish';
    }
    var items := started.value;
    ghost var acc := Response(data, usage, finish);
    var baseLen := |data|;
    data', usage', finish', snaps, error := AbsorbStream(data, usage, finish, items);
    if error.Some? {
      StreamRoundEnds(stream, tools, server, maxIterations, iteration, messages, acc, items, snaps, error);
      return true, snaps, error, messages', data', usage', finish';
    }
    assert Response(data', usage', finish') == Latest(acc, snaps);
    messages' := PushNew(messages, data', baseLen);
    var ps: seq<Part> := [];
    if |data'| > 0 {
      ps := data'[|data'| - 1].parts;
    }
    assert ps == LastParts(data');
    var answers, executed := AnswerFinishedCalls(server, ps);
    if answers.Err? || !executed {
      StreamRoundEnds(stream, tools, server, maxIterations, iteration, messages, acc, items, snaps, error);
      if answers.Err? {
        return true, snaps, Some(answers.error), messages', data', usage', finish';
      }
      return true, snaps, None, messages', data', usage', finish';
    }
    StreamRoundContinues(stream, tools, server, maxIterations, iteration, messages, acc, items, snaps, answers.value);
    var toolMessage := Message.User(answers.value);
    messages' := messages' + [toolMessage];
    data' := data' + [toolMessage];
    snaps := snaps + [Response(data', usage', finish')];
    done := false;
  }

  /** The streamed chat loop, yielding a snapshot per streamed response and
      one after each round's tool answers. */
  method RunChatStream(agent: Agent, stream: StreamTransport, history: seq<Message>) returns (out: StreamOutcome)
    ensures out == ChatStream(agent, stream, history)
  {
    var tools: seq<Tool> := [];
    if agent.server.Some? && agent.server.value.listTools.Ok? {
      tools := ToolValues(agent.server.value.listTools.value);
    }
    var server := agent.server;
    var messages := history;
    var data: seq<Message> := [];
    var usage := NoUsage;
    var finish := Unfinished;
    var yielded: seq<Response> := [];
    var iteration := 0;
    assert StreamLoop(stream, tools, server, agent.maxIterations, 0, history, Start).snapshots
           == [] + StreamLoop(stream, tools, server, agent.maxIterations, 0, history, Start).snapshots;
    while iteration < agent.maxIterations
      invariant Prepend(yielded, StreamLoop(stream, tools, server, agent.maxIterations, iteration, messages, Response(data, usage, finish)))
                == ChatStream(agent, stream, history)
      decreases agent.maxIterations - iteration
    {
      var done, snaps, error;
      ghost var before := StreamLoop(stream, tools, server, agent.maxIterations, iteration, messages, Response(data, usage, finish));
      done, snaps, error, messages, data, usage, finish :=
        StreamRound(stream, tools, server, agent.maxIterations, iteration, messages, data, usage, finish);
      if done {
        return StreamOutcome(yielded + snaps, error);
      }
      PrependAssoc(yielded, snaps, StreamLoop(stream, tools, server, agent.maxIterations, iteration + 1, messages, Response(data, usage, finish)));
      yielded := yielded + snaps;
      iteration := iteration + 1;
    }
    return StreamOutcome(yielded, Some(Config(MaxIterationsReached)));
  }

  predicate NotPendingCall(p: Part) {
    !(p.FunctionCall? && !p.finished)
  }

  function WithoutPendingCalls(ps: seq<Part>): seq<Part> {
    if ps == [] then [] else (if NotPendingCall(ps[0]) then [ps[0]] else []) + WithoutPendingCalls(ps[1..])
  }

  /** The streamed chat answers exactly the calls the chat would, once calls
      still being streamed are dropped: one answer per finished call, in
      order, with the same result. */
  lemma {:induction false} StreamAnswersFinishedCalls(server: Option<Endpoint>, ps: seq<Part>)
    ensures StreamReplies(server, ps).Ok? <==> Replies(server, WithoutPendingCalls(ps)).Ok?
    ensures StreamReplies(server, ps).Ok? ==>
              |StreamReplies(server, ps).value| == |Replies(server, WithoutPendingCalls(ps)).value|
              && forall k :: 0 <= k < |StreamReplies(server, ps).value| ==>
                   Replies(server, WithoutPendingCalls(ps)).value[k] == Message.User([StreamReplies(server, ps).value[k]])
    decreases |ps|
  {
    if ps != [] {
      StreamAnswersFinishedCalls(server, ps[1..]);
      var rest := WithoutPendingCalls(ps[1..]);
      if NotPendingCall(ps[0]) {
        assert WithoutPendingCalls(ps) == [ps[0]] + rest;
        assert ([ps[0]] + rest)[1..] == rest;
      } else {
        assert WithoutPendingCalls(ps) == rest;
      }
    }
  }

  predicate AllExtend(snaps: seq<Response>, prefix: seq<Message>) {
    forall k :: 0 <= k < |snaps| ==> |prefix| <= |snaps[k].data| && snaps[k].data[..|prefix|] == prefix
  }

  lemma AllExtendThrough(snaps: seq<Response>, mid: seq<Message>, prefix: seq<Message>)
    requires AllExtend(snaps, mid) && |prefix| <= |mid| && mid[..|prefix|] == prefix
    ensures AllExtend(snaps, prefix)
  {
    forall k | 0 <= k < |snaps|
      ensures |prefix| <= |snaps[k].data| && snaps[k].data[..|prefix|] == prefix
    {
      assert snaps[k].data[..|prefix|] == snaps[k].data[..|mid|][..|prefix|];
    }
  }

  lemma AllExtendConcat(a: seq<Response>, b: seq<Response>, prefix: seq<Message>)
    requires AllExtend(a, prefix) && AllExtend(b, prefix)
    ensures AllExtend(a + b, prefix)
  {
    forall k | 0 <= k < |a + b|
      ensures |prefix| <= |(a + b)[k].data| && (a + b)[k].data[..|prefix|] == prefix
    {
      if k < |a| { assert (a + b)[k] == a[k]; } else { assert (a + b)[k] == b[k - |a|]; }
    }
  }

  /** Every snapshot of a streamed chat keeps the messages gathered before
      it as a prefix: earlier rounds are never rewritten. */
  lemma {:induction false} StreamSnapshotsExtend(stream: StreamTransport, tools: seq<Tool>, server: Option<Endpoint>, maxIterations: nat,
                                                 round: nat, history: seq<Message>, acc: Response)
    ensures AllExtend(StreamLoop(stream, tools, server, maxIterations, round, history, acc).snapshots, acc.data)
    decreases maxIterations - round
  {
    if round < maxIterations && stream(round, history, tools).Ok? {
      var items := stream(round, history, tools).value;
      var o := RoundOutcome(acc, items);
      assert AllExtend(o.snapshots, acc.data);
      var cur := Latest(acc, o.snapshots);
      var ps := LastParts(cur.data);
      if o.error.None? && StreamReplies(server, ps).Ok? && HasFinishedCall(ps) {
        var answers := StreamReplies(server, ps).value;
        StreamRoundContinues(stream, tools, server, maxIterations, round, history, acc, items, o.snapshots, answers);
        var next := cur.(data := cur.data + [Message.User(answers)]);
        var grown := history + cur.data[|acc.data|..] + [Message.User(answers)];
        StreamSnapshotsExtend(stream, tools, server, maxIterations, round + 1, grown, next);
        assert next.data[..|acc.data|] == acc.data;
        var rest := StreamLoop(stream, tools, server, maxIterations, round + 1, grown, next);
        AllExtendThrough(rest.snapshots, next.data, acc.data);
        AllExtendConcat(o.snapshots, [next], acc.data);
        AllExtendConcat(o.snapshots + [next], rest.snapshots, acc.data);
      }
    }
  }

  /** The streamed chat reads the transport only in rounds below the bound. */
  lemma {:induction false} StreamMakesAtMostBoundRequests(s1: StreamTransport, s2: StreamTransport, tools: seq<Tool>, server: Option<Endpoint>,
                                                          maxIterations: nat, round: nat, history: seq<Message>, acc: Response)
    requires forall r, h :: round <= r < maxIterations ==> s1(r, h, tools) == s2(r, h, tools)
    ensures StreamLoop(s1, tools, server, maxIterations, round, history, acc) == StreamLoop(s2, tools, server, maxIterations, round, history, acc)
    decreases maxIterations - round
  {
    if round < maxIterations && s1(round, history, tools).Ok? {
      var items := s1(round, history, tools).value;
      var o := RoundOutcome(acc, items);
      if o.error.None? {
        var cur := Latest(acc, o.snapshots);
        var grown := history + cur.data[|acc.data|..];
        var ps := LastParts(cur.data);
        if StreamReplies(server, ps).Ok? && HasFinishedCall(ps) {
          var toolMessage := Message.User(StreamReplies(server, ps).value);
          StreamMakesAtMostBoundRequests(s1, s2, tools, server, maxIterations, round + 1, grown + [toolMessage],
                                         cur.(data := cur.data + [toolMessage]));
        }
      }
    }
  }

  /** A round whose stream fails ends the streamed chat with that error,
      after the snapshots the stream gave before it. */
  lemma StreamErrorEndsTheChat(stream: StreamTransport, tools: seq<Tool>, server: Option<Endpoint>, maxIterations: nat,
                               round: nat, history: seq<Message>, acc: Response, k: nat)
    requires round < maxIterations && stream(round, history, tools).Ok?
    requires var items := stream(round, history, tools).value;
             k < |items| && items[k].Err? && forall j :: 0 <= j < k ==> items[j].Ok?
    ensures var items := stream(round, history, tools).value;
            var o := StreamLoop(stream, tools, server, maxIterations, round, history, acc);
            o.error == Some(items[k].error) && |o.snapshots| == k
            && forall j :: 0 <= j < k ==> o.snapshots[j] == Snap(acc, items[j].value)
  {
  }
}
