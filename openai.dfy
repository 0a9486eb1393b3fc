/** The OpenAI chat-completions protocol: the incremental stream decoder, the
    conversion of a whole response, and the building of a request. */
module OpenAi {
  import opened Model

  // ----- Wire types -----

  datatype TokenUsage = TokenUsage(promptTokens: nat, completionTokens: nat)

  datatype FunctionDelta = FunctionDelta(name: Option<string>, arguments: Option<string>)

  /** A fragment of one tool call, addressed by the provider's tool-call index. */
  datatype ToolCallDelta = ToolCallDelta(index: nat, id: Option<string>, fragment: Option<FunctionDelta>)

  datatype Delta = Delta(content: Option<string>, toolCalls: Option<seq<ToolCallDelta>>)

  datatype StreamChoice = StreamChoice(delta: Option<Delta>, finishReason: Option<string>)

  /** A deserialised stream chunk; its id is not read. */
  datatype Chunk = Chunk(choices: seq<StreamChoice>, usage: Option<TokenUsage>)

  /** A complete tool call; its type is always "function". */
  datatype ToolCall = ToolCall(id: string, callType: string, name: string, arguments: string)

  // ----- Shared mappings -----

  function StreamFinish(reason: string): FinishReason {
    match reason
    case "stop" => Stop
    case "length" => OutputTokens
    case "tool_calls" => ToolCalls
    case "content_filter" => ContentFilter
    case _ => Stop
  }

  /** The finish reason of a whole response: `Stop` when absent. */
  function WholeFinish(reason: Option<string>): FinishReason {
    match reason
    case Some("stop") => Stop
    case Some("length") => OutputTokens
    case Some("tool_calls") => ToolCalls
    case Some("content_filter") => ContentFilter
    case _ => Stop
  }

  /** Both paths map every reason alike; only the four known reasons map to
      something other than `Stop`, and nothing maps to the unfinished default. */
  lemma FinishReasonsAgree(reason: string)
    ensures StreamFinish(reason) == WholeFinish(Some(reason)) && WholeFinish(None) == Stop
    ensures StreamFinish(reason) == OutputTokens <==> reason == "length"
    ensures StreamFinish(reason) == ToolCalls <==> reason == "tool_calls"
    ensures StreamFinish(reason) == ContentFilter <==> reason == "content_filter"
    ensures StreamFinish(reason) != Unfinished && StreamFinish(reason) != PromptTokens && StreamFinish(reason) != Error
  {
  }

  // ----- Stream decoder: one choice -----

  /** The decoder's state: the parts of its one Assistant message, usage,
      finish, the part position of each tool-call index, and the position of
      the running text part. */
  datatype Decoder = Decoder(parts: seq<Part>, usage: Usage, finish: FinishReason, toolIndex: map<nat, nat>, textIndex: Option<nat>)

  const Initial: Decoder := Decoder([], NoUsage, Unfinished, map[], None)

  /** A content delta: appended to the running text part, or the first one
      starts it. */
  function ApplyText(d: Decoder, s: string): Decoder {
    match d.textIndex
    case Some(t) =>
      if t < |d.parts| && d.parts[t].Text? then d.(parts := d.parts[t := Part.Text(d.parts[t].content + s, d.parts[t].finished)])
      else d
    case None =>
      d.(parts := d.parts + [Part.Text(s, false)], textIndex := Some(|d.parts|))
  }

  /** The call a fresh tool-call index starts. */
  const BlankCall: Part := FunctionCall(None, "", String(""), None, false)

  /** A tool-call fragment merged into its call: a new id replaces the old,
      name and argument fragments are appended, arguments only while they are
      still text. */
  function UpdateCall(p: Part, tc: ToolCallDelta): (r: Part)
    ensures p.FunctionCall? ==> r.FunctionCall?
    ensures !p.FunctionCall? ==> r == p
  {
    match p
    case FunctionCall(id, name, args, sig, f) =>
      var id' := if tc.id.Some? then tc.id else id;
      var name' := if tc.fragment.Some? && tc.fragment.value.name.Some? then name + tc.fragment.value.name.value else name;
      var args' := if tc.fragment.Some? && tc.fragment.value.arguments.Some? && args.String? then String(args.s + tc.fragment.value.arguments.value) else args;
      FunctionCall(id', name', args', sig, f)
    case _ => p
  }

  function ApplyToolCall(d: Decoder, tc: ToolCallDelta): Decoder {
    var isNew := tc.index !in d.toolIndex;
    var parts := if isNew then d.parts + [BlankCall] else d.parts;
    var idx := if isNew then |d.parts| else d.toolIndex[tc.index];
    var toolIndex := if isNew then d.toolIndex[tc.index := |d.parts|] else d.toolIndex;
    var parts' := if idx < |parts| && parts[idx].FunctionCall? then parts[idx := UpdateCall(parts[idx], tc)] else parts;
    d.(parts := parts', toolIndex := toolIndex)
  }

  function ApplyToolCalls(d: Decoder, tcs: seq<ToolCallDelta>): Decoder
    decreases |tcs|
  {
    if tcs == [] then d else ApplyToolCalls(ApplyToolCall(d, tcs[0]), tcs[1..])
  }

  /** A part closed by a finish reason: a call's argument text is parsed,
      becoming the empty object when it does not parse. */
  function FinishPart(p: Part, parse: string -> Option<Json>): (r: Part)
    ensures r.finished && r.Text? == p.Text? && r.FunctionCall? == p.FunctionCall?
  {
    match p
    case FunctionCall(id, name, args, sig, _) =>
      FunctionCall(id, name, if args.String? then parse(args.s).GetOr(EmptyObject) else args, sig, true)
    case _ => MarkFinished(p)
  }

  function Finished(ps: seq<Part>, parse: string -> Option<Json>): (r: seq<Part>)
    ensures |r| == |ps| && AllFinished(r)
  {
    seq(|ps|, i requires 0 <= i < |ps| => FinishPart(ps[i], parse))
  }

  /** The effect of one choice: its content, then its tool-call fragments in
      order, then its finish reason. */
  function ApplyChoice(d: Decoder, ch: StreamChoice, parse: string -> Option<Json>): Decoder {
    var d1 := if ch.delta.Some? && ch.delta.value.content.Some? then ApplyText(d, ch.delta.value.content.value) else d;
    var d2 := if ch.delta.Some? && ch.delta.value.toolCalls.Some? then ApplyToolCalls(d1, ch.delta.value.toolCalls.value) else d1;
    if ch.finishReason.Some? then d2.(parts := Finished(d2.parts, parse), finish := StreamFinish(ch.finishReason.value)) else d2
  }

  function ApplyChoices(d: Decoder, chs: seq<StreamChoice>, parse: string -> Option<Json>): Decoder
    decreases |chs|
  {
    if chs == [] then d else ApplyChoices(ApplyChoice(d, chs[0], parse), chs[1..], parse)
  }

  // ----- Stream decoder: one chunk -----

  /** The effect of one chunk: its usage, then every choice in order. */
  function Apply(d: Decoder, c: Chunk, parse: string -> Option<Json>): Decoder {
    var d1 := if c.usage.Some? then d.(usage := Usage(Some(c.usage.value.promptTokens), Some(c.usage.value.completionTokens))) else d;
    ApplyChoices(d1, c.choices, parse)
  }

  /** One item from the line framer; a payload that does not deserialise is
      reported with the payload itself. */
  function Feed(d: Decoder, item: Incoming<Chunk>, parse: string -> Option<Json>): Result<Decoder, ClientError> {
    match item
    case Event(c) => Ok(Apply(d, c, parse))
    case Malformed(reason, raw) => Err(ProviderError("JSON parse error: " + reason + " | Input: " + raw))
    case Failed(err) => Err(err)
  }

  /** The whole stream from state `d`: one snapshot per chunk, and the error that ended it. */
  function Run(d: Decoder, items: seq<Incoming<Chunk>>, parse: string -> Option<Json>): StreamOutcome
    decreases |items|
  {
    if items == [] then StreamOutcome([], None)
    else match Feed(d, items[0], parse)
      case Err(err) => StreamOutcome([], Some(err))
      case Ok(d') => Prepend([Snapshot(d'.parts, d'.usage, d'.finish)], Run(d', items[1..], parse))
  }

  // ----- Stream decoder: the loops -----

  /** The loop over a delta's tool-call fragments, growing the parts and the
      index map in place. */
  method AbsorbToolCalls(d: Decoder, tcs: seq<ToolCallDelta>) returns (next: Decoder)
    ensures next == ApplyToolCalls(d, tcs)
  {
    var parts: seq<Part>, toolIndex: map<nat, nat> := d.parts, d.toolIndex;
    var i := 0;
    while i < |tcs|
      invariant 0 <= i <= |tcs|
      invariant ApplyToolCalls(Decoder(parts, d.usage, d.finish, toolIndex, d.textIndex), tcs[i..]) == ApplyToolCalls(d, tcs)
    {
      assert tcs[i..][0] == tcs[i] && tcs[i..][1..] == tcs[i + 1..];
      var tc := tcs[i];
      var idx: nat;
      if tc.index in toolIndex {
        idx := toolIndex[tc.index];
      } else {
        parts := parts + [BlankCall];
        idx := |parts| - 1;
        toolIndex := toolIndex[tc.index := idx];
      }
      if idx < |parts| && parts[idx].FunctionCall? {
        parts := parts[idx := UpdateCall(parts[idx], tc)];
      }
      i := i + 1;
    }
    next := Decoder(parts, d.usage, d.finish, toolIndex, d.textIndex);
  }

  /** The loop closing every part and parsing each call's argument text. */
  method FinishParts(ps: seq<Part>, parse: string -> Option<Json>) returns (parts: seq<Part>)
    ensures parts == Finished(ps, parse)
  {
    parts := ps;
    var j := 0;
    while j < |parts|
      invariant 0 <= j <= |parts| == |ps|
      invariant forall k :: 0 <= k < j ==> parts[k] == FinishPart(ps[k], parse)
      invariant forall k :: j <= k < |parts| ==> parts[k] == ps[k]
    {
      var p := parts[j];
      if p.FunctionCall? && p.arguments.String? {
        var parsed := parse(p.arguments.s);
        var args := if parsed.Some? then parsed.value else EmptyObject;
        parts := parts[j := FunctionCall(p.id, p.name, args, p.signature, true)];
      } else {
        parts := parts[j := FinishPart(p, parse)];
      }
      j := j + 1;
    }
  }

  /** The body of the decoder loop for one chunk: every choice in order. */
  method Handle(d: Decoder, c: Chunk, parse: string -> Option<Json>) returns (next: Decoder)
    ensures next == Apply(d, c, parse)
  {
    next := d;
    if c.usage.Some? {
      next := next.(usage := Usage(Some(c.usage.value.promptTokens), Some(c.usage.value.completionTokens)));
    }
    ghost var start := next;
    var i := 0;
    while i < |c.choices|
      invariant 0 <= i <= |c.choices|
      invariant ApplyChoices(next, c.choices[i..], parse) == ApplyChoices(start, c.choices, parse)
    {
      assert c.choices[i..][0] == c.choices[i] && c.choices[i..][1..] == c.choices[i + 1..];
      var ch := c.choices[i];
      if ch.delta.Some? {
        if ch.delta.value.content.Some? {
          next := ApplyText(next, ch.delta.value.content.value);
        }
        if ch.delta.value.toolCalls.Some? {
          next := AbsorbToolCalls(next, ch.delta.value.toolCalls.value);
        }
      }
      if ch.finishReason.Some? {
        var parts := FinishParts(next.parts, parse);
        next := next.(parts := parts, finish := StreamFinish(ch.finishReason.value));
      }
      i := i + 1;
    }
  }

  /** The decoder loop: reads items in order and yields a copy of the
      response after every chunk; the first error ends it. */
  method Decode(items: seq<Incoming<Chunk>>, parse: string -> Option<Json>) returns (snapshots: seq<Response>, error: Option<ClientError>)
    ensures StreamOutcome(snapshots, error) == Run(Initial, items, parse)
  {
    var current := Initial;
    snapshots := [];
    var i := 0;
    while i < |items|
      invariant 0 <= i <= |items|
      invariant Prepend(snapshots, Run(current, items[i..], parse)) == Run(Initial, items, parse)
    {
      assert items[i..][0] == items[i] && items[i..][1..] == items[i + 1..];
      match items[i] {
        case Failed(err) =>
          return snapshots, Some(err);
        case Malformed(reason, raw) =>
          return snapshots, Some(ProviderError("JSON parse error: " + reason + " | Input: " + raw));
        case Event(c) =>
          var next := Handle(current, c, parse);
          PrependAssoc(snapshots, [Snapshot(next.parts, next.usage, next.finish)], Run(next, items[i + 1..], parse));
          snapshots := snapshots + [Snapshot(next.parts, next.usage, next.finish)];
          current := next;
      }
      i := i + 1;
    }
    return snapshots, None;
  }

  // ----- Properties of the decoder -----

  /** A chunk's usage replaces both counters; a chunk without one leaves them. */
  lemma UsageIsOverwritten(d: Decoder, c: Chunk, parse: string -> Option<Json>)
    ensures Apply(d, c, parse).usage ==
              if c.usage.Some? then Usage(Some(c.usage.value.promptTokens), Some(c.usage.value.completionTokens)) else d.usage
  {
    ChoicesKeepUsage(if c.usage.Some? then d.(usage := Usage(Some(c.usage.value.promptTokens), Some(c.usage.value.completionTokens))) else d,
                     c.choices, parse);
  }

  lemma {:induction false} ToolCallsKeepUsage(d: Decoder, tcs: seq<ToolCallDelta>)
    ensures ApplyToolCalls(d, tcs).usage == d.usage && ApplyToolCalls(d, tcs).finish == d.finish
    ensures ApplyToolCalls(d, tcs).textIndex == d.textIndex
    decreases |tcs|
  {
    if tcs != [] {
      ToolCallsKeepUsage(ApplyToolCall(d, tcs[0]), tcs[1..]);
    }
  }

  lemma {:induction false} ChoicesKeepUsage(d: Decoder, chs: seq<StreamChoice>, parse: string -> Option<Json>)
    ensures ApplyChoices(d, chs, parse).usage == d.usage
    decreases |chs|
  {
    if chs != [] {
      var ch := chs[0];
      var d1 := if ch.delta.Some? && ch.delta.value.content.Some? then ApplyText(d, ch.delta.value.content.value) else d;
      if ch.delta.Some? && ch.delta.value.toolCalls.Some? {
        ToolCallsKeepUsage(d1, ch.delta.value.toolCalls.value);
      }
      ChoicesKeepUsage(ApplyChoice(d, ch, parse), chs[1..], parse);
    }
  }

  /** The index bookkeeping: every tool-call index names a distinct call
      part, and the text index, when set, names the one text part there is. */
  predicate Indexed(d: Decoder) {
    && (forall k :: k in d.toolIndex ==> d.toolIndex[k] < |d.parts| && d.parts[d.toolIndex[k]].FunctionCall?)
    && (forall k1, k2 :: k1 in d.toolIndex && k2 in d.toolIndex && k1 != k2 ==> d.toolIndex[k1] != d.toolIndex[k2])
    && (match d.textIndex
        case None => forall j :: 0 <= j < |d.parts| ==> !d.parts[j].Text?
        case Some(t) => t < |d.parts| && d.parts[t].Text? && forall j :: 0 <= j < |d.parts| && j != t ==> !d.parts[j].Text?)
  }

  lemma InitialIsIndexed()
    ensures Indexed(Initial)
    ensures Snapshot(Initial.parts, Initial.usage, Initial.finish) ==
            Response([Message.Assistant([])], NoUsage, Unfinished)
  {
  }

  /** The first content delta starts one unfinished text part and records
      its position; later deltas extend that part and touch nothing else. */
  lemma TextDeltaAppends(d: Decoder, s: string)
    requires Indexed(d)
    ensures var n := ApplyText(d, s);
            && n.toolIndex == d.toolIndex
            && (d.textIndex.None? ==> n.parts == d.parts + [Part.Text(s, false)] && n.textIndex == Some(|d.parts|))
            && (d.textIndex.Some? ==>
                  var t := d.textIndex.value;
                  && n.textIndex == d.textIndex && |n.parts| == |d.parts|
                  && n.parts[t] == Part.Text(d.parts[t].content + s, d.parts[t].finished)
                  && forall j :: 0 <= j < |d.parts| && j != t ==> n.parts[j] == d.parts[j])
  {
  }

  /** The first fragment of a tool-call index pushes exactly one call, the
      blank call with the fragment merged in, and records its position; a
      later fragment of that index merges into the part at the recorded
      position and touches nothing else. */
  lemma ToolCallAddressesItsPart(d: Decoder, tc: ToolCallDelta)
    requires Indexed(d)
    ensures var n := ApplyToolCall(d, tc);
            && (tc.index !in d.toolIndex ==>
                  && n.parts == d.parts + [UpdateCall(BlankCall, tc)]
                  && n.toolIndex == d.toolIndex[tc.index := |d.parts|])
            && (tc.index in d.toolIndex ==>
                  var idx := d.toolIndex[tc.index];
                  && n.toolIndex == d.toolIndex && |n.parts| == |d.parts|
                  && n.parts[idx] == UpdateCall(d.parts[idx], tc)
                  && forall j :: 0 <= j < |d.parts| && j != idx ==> n.parts[j] == d.parts[j])
  {
  }

  /** A fragment's id replaces the call's id; name and argument fragments are
      appended in order, the arguments only while they are still text. */
  lemma CallFragmentsAppend(p: Part, tc: ToolCallDelta)
    requires p.FunctionCall?
    ensures var q := UpdateCall(p, tc);
            && q.FunctionCall? && q.signature == p.signature && q.finished == p.finished
            && q.id == (if tc.id.Some? then tc.id else p.id)
            && (tc.fragment.None? ==> q.name == p.name && q.arguments == p.arguments)
            && (tc.fragment.Some? ==>
                  && q.name == p.name + tc.fragment.value.name.GetOr("")
                  && q.arguments == (if p.arguments.String? then String(p.arguments.s + tc.fragment.value.arguments.GetOr("")) else p.arguments))
  {
    if tc.fragment.Some? {
      assert p.name + "" == p.name;
      if p.arguments.String? {
        assert p.arguments.s + "" == p.arguments.s;
      }
    }
  }

  /** A fragment for a known index updates its call in place. */
  lemma KnownCallKeepsIndexed(d: Decoder, tc: ToolCallDelta)
    requires Indexed(d) && tc.index in d.toolIndex
    ensures Indexed(ApplyToolCall(d, tc)) && ApplyToolCall(d, tc).toolIndex == d.toolIndex
    ensures |ApplyToolCall(d, tc).parts| == |d.parts|
  {
    var n := ApplyToolCall(d, tc);
    var idx := d.toolIndex[tc.index];
    ToolCallAddressesItsPart(d, tc);
    assert n.parts[idx].FunctionCall?;
    assert forall j :: 0 <= j < |d.parts| ==>
             (n.parts[j].Text? <==> d.parts[j].Text?) && (d.parts[j].FunctionCall? ==> n.parts[j].FunctionCall?);
  }

  /** A fragment for a new index pushes a call and records its position. */
  lemma NewCallKeepsIndexed(d: Decoder, tc: ToolCallDelta)
    requires Indexed(d) && tc.index !in d.toolIndex
    ensures Indexed(ApplyToolCall(d, tc)) && ApplyToolCall(d, tc).toolIndex == d.toolIndex[tc.index := |d.parts|]
    ensures |ApplyToolCall(d, tc).parts| == |d.parts| + 1
  {
    var n := ApplyToolCall(d, tc);
    ToolCallAddressesItsPart(d, tc);
    assert n.parts[|d.parts|].FunctionCall?;
    forall k | k in n.toolIndex
      ensures n.toolIndex[k] < |n.parts| && n.parts[n.toolIndex[k]].FunctionCall?
    {
      if k != tc.index {
        assert n.toolIndex[k] == d.toolIndex[k];
      }
    }
  }

  lemma ApplyToolCallKeepsIndexed(d: Decoder, tc: ToolCallDelta)
    requires Indexed(d)
    ensures Indexed(ApplyToolCall(d, tc))
    ensures |ApplyToolCall(d, tc).parts| >= |d.parts|
    ensures forall k :: k in d.toolIndex ==> k in ApplyToolCall(d, tc).toolIndex && ApplyToolCall(d, tc).toolIndex[k] == d.toolIndex[k]
  {
    if tc.index in d.toolIndex {
      KnownCallKeepsIndexed(d, tc);
    } else {
      NewCallKeepsIndexed(d, tc);
    }
  }

  lemma {:induction false} ApplyToolCallsKeepsIndexed(d: Decoder, tcs: seq<ToolCallDelta>)
    requires Indexed(d)
    ensures Indexed(ApplyToolCalls(d, tcs))
    ensures forall k :: k in d.toolIndex ==> k in ApplyToolCalls(d, tcs).toolIndex && ApplyToolCalls(d, tcs).toolIndex[k] == d.toolIndex[k]
    decreases |tcs|
  {
    if tcs != [] {
      ApplyToolCallKeepsIndexed(d, tcs[0]);
      ApplyToolCallsKeepsIndexed(ApplyToolCall(d, tcs[0]), tcs[1..]);
    }
  }

  lemma ApplyTextKeepsIndexed(d: Decoder, s: string)
    requires Indexed(d)
    ensures Indexed(ApplyText(d, s)) && ApplyText(d, s).toolIndex == d.toolIndex
  {
    var n := ApplyText(d, s);
    TextDeltaAppends(d, s);
    assert forall j :: 0 <= j < |d.parts| && Some(j) != n.textIndex ==> n.parts[j] == d.parts[j];
    forall k | k in n.toolIndex
      ensures n.toolIndex[k] < |n.parts| && n.parts[n.toolIndex[k]].FunctionCall?
    {
      assert n.parts[d.toolIndex[k]] == d.parts[d.toolIndex[k]];
    }
  }

  lemma FinishKeepsIndexed(d: Decoder, parse: string -> Option<Json>, f: FinishReason)
    requires Indexed(d)
    ensures Indexed(d.(parts := Finished(d.parts, parse), finish := f))
  {
    var n := d.(parts := Finished(d.parts, parse), finish := f);
    assert forall j :: 0 <= j < |d.parts| ==> n.parts[j] == FinishPart(d.parts[j], parse);
  }

  lemma ApplyChoiceKeepsIndexed(d: Decoder, ch: StreamChoice, parse: string -> Option<Json>)
    requires Indexed(d)
    ensures Indexed(ApplyChoice(d, ch, parse))
    ensures forall k :: k in d.toolIndex ==> k in ApplyChoice(d, ch, parse).toolIndex && ApplyChoice(d, ch, parse).toolIndex[k] == d.toolIndex[k]
  {
    var d1 := if ch.delta.Some? && ch.delta.value.content.Some? then ApplyText(d, ch.delta.value.content.value) else d;
    if ch.delta.Some? && ch.delta.value.content.Some? {
      ApplyTextKeepsIndexed(d, ch.delta.value.content.value);
    }
    var d2 := if ch.delta.Some? && ch.delta.value.toolCalls.Some? then ApplyToolCalls(d1, ch.delta.value.toolCalls.value) else d1;
    if ch.delta.Some? && ch.delta.value.toolCalls.Some? {
      ApplyToolCallsKeepsIndexed(d1, ch.delta.value.toolCalls.value);
    }
    if ch.finishReason.Some? {
      FinishKeepsIndexed(d2, parse, StreamFinish(ch.finishReason.value));
    }
  }

  lemma {:induction false} ApplyChoicesKeepsIndexed(d: Decoder, chs: seq<StreamChoice>, parse: string -> Option<Json>)
    requires Indexed(d)
    ensures Indexed(ApplyChoices(d, chs, parse))
    ensures forall k :: k in d.toolIndex ==> k in ApplyChoices(d, chs, parse).toolIndex && ApplyChoices(d, chs, parse).toolIndex[k] == d.toolIndex[k]
    decreases |chs|
  {
    if chs != [] {
      ApplyChoiceKeepsIndexed(d, chs[0], parse);
      ApplyChoicesKeepsIndexed(ApplyChoice(d, chs[0], parse), chs[1..], parse);
    }
  }

  /** Every chunk keeps the bookkeeping, and a tool-call index once seen keeps
      its position: later fragments reach the same part whatever comes between. */
  lemma ApplyKeepsIndexed(d: Decoder, c: Chunk, parse: string -> Option<Json>)
    requires Indexed(d)
    ensures Indexed(Apply(d, c, parse))
    ensures forall k :: k in d.toolIndex ==> k in Apply(d, c, parse).toolIndex && Apply(d, c, parse).toolIndex[k] == d.toolIndex[k]
  {
    ApplyChoicesKeepsIndexed(if c.usage.Some? then d.(usage := Usage(Some(c.usage.value.promptTokens), Some(c.usage.value.completionTokens))) else d,
                             c.choices, parse);
  }

  predicate AtMostOneText(ps: seq<Part>) {
    forall i, j :: 0 <= i < |ps| && 0 <= j < |ps| && ps[i].Text? && ps[j].Text? ==> i == j
  }

  /** A snapshot of one message holding at most one text part. */
  predicate OneTextPart(r: Response) {
    |r.data| == 1 && AtMostOneText(r.data[0].parts)
  }

  /** Every snapshot of a stream holds at most one text part. */
  lemma {:induction false} SnapshotsHoldAtMostOneText(d: Decoder, items: seq<Incoming<Chunk>>, parse: string -> Option<Json>)
    requires Indexed(d)
    ensures forall k :: 0 <= k < |Run(d, items, parse).snapshots| ==> OneTextPart(Run(d, items, parse).snapshots[k])
    decreases |items|
  {
    if items != [] && items[0].Event? {
      var d' := Apply(d, items[0].event, parse);
      ApplyKeepsIndexed(d, items[0].event, parse);
      SnapshotsHoldAtMostOneText(d', items[1..], parse);
      var here: seq<Response> := [Snapshot(d'.parts, d'.usage, d'.finish)];
      var rest := Run(d', items[1..], parse).snapshots;
      assert Run(d, items, parse).snapshots == here + rest;
      forall k | 0 <= k < |here + rest|
        ensures OneTextPart((here + rest)[k])
      {
        if k == 0 {
          assert (here + rest)[k] == Snapshot(d'.parts, d'.usage, d'.finish);
        } else {
          assert (here + rest)[k] == rest[k - 1];
        }
      }
    }
  }

  /** A finish reason closes every part, parses each call's argument text
      (the empty object when it does not parse), leaves every other part's
      content alone and sets the mapped reason. The choice's delta, if any,
      is applied first, as it is for a choice without a reason; a final
      chunk's empty delta changes nothing. */
  lemma FinishClosesEverything(d: Decoder, ch: StreamChoice, parse: string -> Option<Json>)
    requires ch.finishReason.Some?
    ensures var d0 := ApplyChoice(d, ch.(finishReason := None), parse);
            var n := ApplyChoice(d, ch, parse);
            && (ch.delta.None? || (ch.delta.value.content.None? && ch.delta.value.toolCalls.None?) ==> d0 == d)
            && |n.parts| == |d0.parts| && AllFinished(n.parts)
            && n.finish == StreamFinish(ch.finishReason.value)
            && n.usage == d0.usage
            && (forall j :: 0 <= j < |d0.parts| && d0.parts[j].FunctionCall? && d0.parts[j].arguments.String? ==>
                  n.parts[j].FunctionCall?
                  && n.parts[j].arguments == (if parse(d0.parts[j].arguments.s).Some? then parse(d0.parts[j].arguments.s).value else EmptyObject))
            && (forall j :: 0 <= j < |d0.parts| && !d0.parts[j].FunctionCall? ==> n.parts[j] == MarkFinished(d0.parts[j]))
  {
  }

  /** The stream fails exactly when an item is not a chunk; otherwise it
      yields one snapshot per chunk. */
  lemma {:induction false} OneSnapshotPerChunk(d: Decoder, items: seq<Incoming<Chunk>>, parse: string -> Option<Json>)
    ensures Run(d, items, parse).error.None? <==> forall k :: 0 <= k < |items| ==> items[k].Event?
    ensures Run(d, items, parse).error.None? ==> |Run(d, items, parse).snapshots| == |items|
    decreases |items|
  {
    if items != [] {
      assert forall k :: 1 <= k < |items| ==> items[k] == items[1..][k - 1];
      if items[0].Event? {
        OneSnapshotPerChunk(Apply(d, items[0].event, parse), items[1..], parse);
      }
    }
  }

  /** A payload that does not deserialise ends the stream with a provider
      error that quotes it. */
  lemma MalformedAborts(d: Decoder, reason: string, raw: string, rest: seq<Incoming<Chunk>>, parse: string -> Option<Json>)
    ensures Run(d, [Malformed(reason, raw)] + rest, parse) ==
              StreamOutcome([], Some(ProviderError("JSON parse error: " + reason + " | Input: " + raw)))
  {
    assert ([Malformed(reason, raw)] + rest)[0] == Malformed(reason, raw);
  }

  // ----- Whole response -----

  datatype ResponseMessage = ResponseMessage(content: Option<string>, toolCalls: Option<seq<ToolCall>>)

  datatype Choice = Choice(message: ResponseMessage, finishReason: Option<string>)

  /** A whole response; its id is not read. */
  datatype CompletionResponse = CompletionResponse(choices: seq<Choice>, usage: Option<TokenUsage>)

  /** A finished call part; arguments that do not parse become `Null`. */
  function CallPart(tc: ToolCall, parse: string -> Option<Json>): (r: Part)
    ensures r.FunctionCall? && r.finished && r.id == Some(tc.id) && r.name == tc.name && r.signature.None?
    ensures r.arguments == (if parse(tc.arguments).Some? then parse(tc.arguments).value else Null)
  {
    FunctionCall(Some(tc.id), tc.name, parse(tc.arguments).GetOr(Null), None, true)
  }

  function CallParts(tcs: seq<ToolCall>, parse: string -> Option<Json>): (r: seq<Part>)
    ensures |r| == |tcs| && forall k :: 0 <= k < |tcs| ==> r[k] == CallPart(tcs[k], parse)
  {
    seq(|tcs|, k requires 0 <= k < |tcs| => CallPart(tcs[k], parse))
  }

  /** A whole response: one Assistant message holding the first choice's text
      part, if any, before its tool calls, every part finished. */
  function ToResponse(r: CompletionResponse, parse: string -> Option<Json>): (resp: Response)
    ensures |resp.data| == 1 && resp.data[0].Assistant? && AllFinished(resp.data[0].parts)
    ensures r.choices == [] ==> resp.data[0].parts == [] && resp.finish == Stop
    ensures r.choices != [] ==>
              var m := r.choices[0].message;
              var ps := resp.data[0].parts;
              && |ps| == (if m.content.Some? then 1 else 0) + (if m.toolCalls.Some? then |m.toolCalls.value| else 0)
              && (m.content.Some? ==> ps[0] == Part.Text(m.content.value, true))
              && (forall j :: 0 <= j < |ps| ==> (ps[j].Text? <==> j == 0 && m.content.Some?))
              && (m.toolCalls.Some? ==> ps[(if m.content.Some? then 1 else 0)..] == CallParts(m.toolCalls.value, parse))
    ensures r.choices != [] ==> resp.finish == WholeFinish(r.choices[0].finishReason)
    ensures resp.finish != Unfinished
    ensures resp.usage == (if r.usage.Some? then Usage(Some(r.usage.value.promptTokens), Some(r.usage.value.completionTokens)) else NoUsage)
  {
    var parts := if r.choices == [] then []
                 else
                   var m := r.choices[0].message;
                   (if m.content.Some? then [Part.Text(m.content.value, true)] else [])
                   + (if m.toolCalls.Some? then CallParts(m.toolCalls.value, parse) else []);
    var finish := if r.choices == [] then Stop else WholeFinish(r.choices[0].finishReason);
    Response([Message.Assistant(parts)],
             if r.usage.Some? then Usage(Some(r.usage.value.promptTokens), Some(r.usage.value.completionTokens)) else NoUsage,
             finish)
  }

  // ----- Request -----

  datatype ContentPart =
    | TextContent(text: string)
    | ImageUrl(url: string)
    | FileContent(fileData: Option<string>, fileId: Option<string>, filename: Option<string>)

  /** Message content: a plain string, or a list of typed parts. */
  datatype MessageContent = PlainText(text: string) | Parts(parts: seq<ContentPart>)

  datatype RequestMessage = RequestMessage(
    role: string,
    content: MessageContent,
    name: Option<string>,
    toolCallId: Option<string>,
    toolCalls: seq<ToolCall>)

  datatype RequestTool = RequestTool(toolType: string, name: string, description: Option<string>, parameters: Json)

  /** The options the request reads; sampling floats and provider
      pass-through settings are left out. */
  datatype Options = Options(system: Option<string>, maxTokens: Option<nat>)

  datatype Request = Request(
    model: string,
    messages: seq<RequestMessage>,
    maxTokens: Option<nat>,
    maxCompletionTokens: Option<nat>,
    stream: Option<bool>,
    tools: seq<RequestTool>)

  /** The content parts of a media part: its anchor line, then the image as a
      data URL or the file's data under its uri. */
  function MediaContent(p: Part): (r: seq<ContentPart>)
    requires p.Media?
    ensures |r| == 2 && r[0] == TextContent(AnchorMedia(p))
    ensures r[1].ImageUrl? <==> p.mediaType.Image?
    ensures r[1].ImageUrl? ==> r[1].url == "data:" + p.mimeType + ";base64," + p.data
    ensures !r[1].ImageUrl? ==> r[1] == FileContent(Some(p.data), None, p.uri)
  {
    [TextContent(AnchorMedia(p)),
     if p.mediaType.Image? then ImageUrl("data:" + p.mimeType + ";base64," + p.data)
     else FileContent(Some(p.data), None, p.uri)]
  }

  /** The lines a function response's attachments add to its text. */
  function AttachmentLines(ps: seq<Part>): string {
    if ps == [] then ""
    else
      var p := ps[0];
      (if p.Media? then "\n" + AnchorMedia(p) + (if p.mediaType.Image? then "\n[Image Content]" else "\n[File: " + p.mimeType + "]") else "")
      + AttachmentLines(ps[1..])
  }

  /** The text sent for a function response: its value unless it is the
      empty object, then a line pair per attachment. */
  function ResponseText(response: Json, parts: seq<Part>, serialize: Json -> string): string {
    (if response != EmptyObject then serialize(response) else "") + AttachmentLines(parts)
  }

  /** The content parts of a message: Text, Media and function responses with
      an id contribute; reasoning and calls do not. */
  function ContentParts(ps: seq<Part>, serialize: Json -> string): seq<ContentPart> {
    if ps == [] then []
    else
      var p := ps[0];
      (match p
       case Text(t, _) => [TextContent(t)]
       case Media(_, _, _, _, _) => MediaContent(p)
       case FunctionResponse(id, _, response, inner, _) =>
         if id.Some? then [TextContent(ResponseText(response, inner, serialize))] else []
       case _ => [])
      + ContentParts(ps[1..], serialize)
  }

  /** The calls with an id, in order, their arguments serialised. */
  function ToolCallsOf(ps: seq<Part>, serialize: Json -> string): (r: seq<ToolCall>)
    ensures |r| == Count(ps, IsCallWithId)
  {
    if ps == [] then []
    else
      (if ps[0].FunctionCall? && ps[0].id.Some? then [ToolCall(ps[0].id.value, "function", ps[0].name, serialize(ps[0].arguments))] else [])
      + ToolCallsOf(ps[1..], serialize)
  }

  predicate IsCallWithId(p: Part) {
    p.FunctionCall? && p.id.Some?
  }

  predicate IsResponseWithId(p: Part) {
    p.FunctionResponse? && p.id.Some?
  }

  /** The id of the last function response that has one. */
  function ToolCallId(ps: seq<Part>): (r: Option<string>)
    ensures r.Some? <==> exists j :: 0 <= j < |ps| && IsResponseWithId(ps[j])
    ensures r.Some? ==> exists j :: 0 <= j < |ps| && IsResponseWithId(ps[j]) && r == ps[j].id
                                   && forall i :: j < i < |ps| ==> !IsResponseWithId(ps[i])
  {
    if ps == [] then None
    else
      var rest := ToolCallId(ps[1..]);
      assert forall j :: 1 <= j < |ps| ==> ps[j] == ps[1..][j - 1];
      if rest.Some? then rest else if IsResponseWithId(ps[0]) then ps[0].id else None
  }

  /** A single text part is sent as a plain string, no part as the empty
      string, anything else as a list. */
  function ContentOf(cps: seq<ContentPart>): (r: MessageContent)
    ensures r.PlainText? <==> cps == [] || (|cps| == 1 && cps[0].TextContent?)
    ensures r.PlainText? ==> r.text == (if cps == [] then "" else cps[0].text)
    ensures r.Parts? ==> r.parts == cps
  {
    if |cps| == 1 && cps[0].TextContent? then PlainText(cps[0].text)
    else if cps != [] then Parts(cps)
    else PlainText("")
  }

  function RoleName(m: Message): string {
    match m
    case User(_) => "user"
    case Assistant(_) => "assistant"
  }

  /** One request message per message, whatever its parts. */
  function MessageFor(m: Message, serialize: Json -> string): (r: RequestMessage)
    ensures r.role == "tool" <==> exists j :: 0 <= j < |m.parts| && IsResponseWithId(m.parts[j])
    ensures r.role != "tool" ==> r.role == (if m.User? then "user" else "assistant")
    ensures r.name.None? && r.toolCallId == ToolCallId(m.parts)
    ensures r.content == ContentOf(ContentParts(m.parts, serialize))
    ensures r.toolCalls == ToolCallsOf(m.parts, serialize)
  {
    var id := ToolCallId(m.parts);
    RequestMessage(if id.Some? then "tool" else RoleName(m),
                   ContentOf(ContentParts(m.parts, serialize)), None, id, ToolCallsOf(m.parts, serialize))
  }

  function MessagesFor(ms: seq<Message>, serialize: Json -> string): (r: seq<RequestMessage>)
    ensures |r| == |ms| && forall k :: 0 <= k < |ms| ==> r[k] == MessageFor(ms[k], serialize)
  {
    seq(|ms|, k requires 0 <= k < |ms| => MessageFor(ms[k], serialize))
  }

  predicate IsReasoningModel(model: string) {
    (|model| >= 2 && model[..2] == "o1") || (|model| >= 2 && model[..2] == "o3")
  }

  function RequestToolOf(t: Tool): (r: RequestTool)
    ensures r == RequestTool("function", t.name, t.description, Object(t.inputSchema))
  {
    RequestTool("function", t.name, t.description, Object(t.inputSchema))
  }

  /** The request: the system message first when set, then one message per
      input message; the token limit goes to `max_completion_tokens` for o1
      and o3 models and to `max_tokens` otherwise. */
  function BuildRequest(model: string, ms: seq<Message>, o: Options, tools: seq<Tool>, stream: bool, serialize: Json -> string): (r: Request)
    ensures |r.messages| == |ms| + (if o.system.Some? then 1 else 0)
    ensures o.system.Some? ==> r.messages[0] == RequestMessage("system", PlainText(o.system.value), None, None, [])
    ensures r.messages[|r.messages| - |ms|..] == MessagesFor(ms, serialize)
    ensures IsReasoningModel(model) ==> r.maxTokens.None? && r.maxCompletionTokens == o.maxTokens
    ensures !IsReasoningModel(model) ==> r.maxTokens == o.maxTokens && r.maxCompletionTokens.None?
    ensures |r.tools| == |tools| && forall k :: 0 <= k < |tools| ==> r.tools[k] == RequestToolOf(tools[k])
    ensures r.stream == (if stream then Some(true) else None)
  {
    var system := if o.system.Some? then [RequestMessage("system", PlainText(o.system.value), None, None, [])] else [];
    var reasoning := IsReasoningModel(model);
    Request(model, system + MessagesFor(ms, serialize),
            if reasoning then None else o.maxTokens,
            if reasoning then o.maxTokens else None,
            if stream then Some(true) else None,
            seq(|tools|, k requires 0 <= k < |tools| => RequestToolOf(tools[k])))
  }

  // ----- Properties of the request -----

  /** A message's calls read back from a whole response are the calls that
      have an id, finished, without a signature, provided parsing inverts
      serialisation. */
  lemma {:induction false} SentCallsComeBack(ps: seq<Part>, serialize: Json -> string, parse: string -> Option<Json>)
    requires forall j :: 0 <= j < |ps| && IsCallWithId(ps[j]) ==> parse(serialize(ps[j].arguments)) == Some(ps[j].arguments)
    ensures CallParts(ToolCallsOf(ps, serialize), parse) == EchoCalls(ps)
    decreases |ps|
  {
    if ps != [] {
      assert forall j :: 1 <= j < |ps| ==> ps[j] == ps[1..][j - 1];
      SentCallsComeBack(ps[1..], serialize, parse);
      var here := if IsCallWithId(ps[0]) then [ToolCall(ps[0].id.value, "function", ps[0].name, serialize(ps[0].arguments))] else [];
      var rest := ToolCallsOf(ps[1..], serialize);
      CallPartsAppend(here, rest, parse);
      if IsCallWithId(ps[0]) {
        assert CallParts(here, parse) == [FunctionCall(ps[0].id, ps[0].name, ps[0].arguments, None, true)];
      }
    }
  }

  lemma CallPartsAppend(xs: seq<ToolCall>, ys: seq<ToolCall>, parse: string -> Option<Json>)
    ensures CallParts(xs + ys, parse) == CallParts(xs, parse) + CallParts(ys, parse)
  {
    assert forall k :: 0 <= k < |xs| + |ys| ==> (xs + ys)[k] == if k < |xs| then xs[k] else ys[k - |xs|];
  }

  /** The calls with an id, as a whole response gives them back. */
  function EchoCalls(ps: seq<Part>): (r: seq<Part>)
    ensures AllFinished(r) && |r| == Count(ps, IsCallWithId)
  {
    if ps == [] then []
    else
      (if IsCallWithId(ps[0]) then [FunctionCall(ps[0].id, ps[0].name, ps[0].arguments, None, true)] else [])
      + EchoCalls(ps[1..])
  }

  /** A whole response whose first choice carries the calls a message is sent
      with reads back as those calls, finished, with the reason the stream
      would give, provided parsing inverts serialisation. */
  lemma WholeResponseEchoes(ps: seq<Part>, reason: string, rest: seq<Choice>,
                            serialize: Json -> string, parse: string -> Option<Json>)
    requires forall j :: 0 <= j < |ps| && IsCallWithId(ps[j]) ==> parse(serialize(ps[j].arguments)) == Some(ps[j].arguments)
    ensures var resp := ToResponse(CompletionResponse([Choice(ResponseMessage(None, Some(ToolCallsOf(ps, serialize))), Some(reason))] + rest, None), parse);
            && resp.data == [Message.Assistant(EchoCalls(ps))]
            && resp.finish == StreamFinish(reason) && resp.usage == NoUsage
  {
    SentCallsComeBack(ps, serialize, parse);
    FinishReasonsAgree(reason);
  }

  /** A message of only Text parts is sent with one content part per text;
      a single one goes as a plain string. */
  lemma {:induction false} TextOnlyContent(ps: seq<Part>, serialize: Json -> string)
    requires forall j :: 0 <= j < |ps| ==> ps[j].Text?
    ensures |ContentParts(ps, serialize)| == |ps|
    ensures forall j :: 0 <= j < |ps| ==> ContentParts(ps, serialize)[j] == TextContent(ps[j].content)
    decreases |ps|
  {
    if ps != [] {
      assert forall j :: 1 <= j < |ps| ==> ps[j] == ps[1..][j - 1];
      TextOnlyContent(ps[1..], serialize);
    }
  }
}
