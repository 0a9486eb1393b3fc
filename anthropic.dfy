/** The Anthropic Messages protocol: the incremental stream decoder, the
    conversion of a whole response, and the building of a request. */
module Anthropic {
  import opened Model

  // ----- Wire types -----

  /** A base64 image or document source; its `type` is always "base64". */
  datatype Source = Base64(mediaType: string, data: string)

  datatype ToolResultItem = ResultText(text: string) | ResultImage(source: Source)

  datatype Block =
    | TextBlock(text: string)
    | ImageBlock(source: Source)
    | DocumentBlock(source: Source)
    | ToolUseBlock(id: string, name: string, input: Json)
    | ToolResultBlock(toolUseId: string, content: seq<ToolResultItem>, isError: Option<bool>)
    | ThinkingBlock(thinking: string, signature: string)
    | RedactedThinkingBlock(data: string)

  datatype TokenUsage = TokenUsage(inputTokens: nat, outputTokens: nat)

  datatype Delta =
    | TextDelta(text: string)
    | InputJsonDelta(partialJson: string)
    | ThinkingDelta(thinking: string)
    | SignatureDelta(signature: string)

  /** A deserialised stream event; `MessageStart` keeps only the usage of the
      message it carries, which is all the decoder reads. */
  datatype StreamEvent =
    | MessageStart(usage: TokenUsage)
    | ContentBlockStart(index: nat, block: Block)
    | ContentBlockDelta(index: nat, delta: Delta)
    | ContentBlockStop(index: nat)
    | MessageDelta(stopReason: Option<string>, deltaUsage: Option<TokenUsage>)
    | MessageStop
    | Ping
    | ErrorEvent(errorType: string, message: string)

  // ----- Stream decoder: one event -----

  /** The id, name and JSON text collected so far for a tool-use block. */
  datatype ToolBuffer = ToolBuffer(id: string, name: string, json: string)

  /** The decoder's state: the parts of its one Assistant message, usage,
      finish, and the tool buffers keyed by block index. */
  datatype Decoder = Decoder(parts: seq<Part>, usage: Usage, finish: FinishReason, toolBuffers: map<nat, ToolBuffer>)

  const Initial: Decoder := Decoder([], NoUsage, Unfinished, map[])

  datatype Step = Next(decoder: Decoder, emit: bool) | Fail(error: ClientError)

  /** The unfinished part a block start pushes, if its kind is decoded. */
  function StartPart(block: Block): (r: Option<Part>)
    ensures r.Some? <==> block.TextBlock? || block.ToolUseBlock? || block.ThinkingBlock?
    ensures r.Some? ==> !r.value.finished
  {
    match block
    case TextBlock(t) => Some(Part.Text(t, false))
    case ToolUseBlock(id, name, _) => Some(FunctionCall(Some(id), name, Null, None, false))
    case ThinkingBlock(t, sig) => Some(Reasoning(t, None, Some(sig), false))
    case _ => None
  }

  /** A text, thinking or signature delta applied to a part of the matching kind. */
  function DeltaPart(p: Part, delta: Delta): (r: Part)
    ensures p.Text? && delta.TextDelta? ==> r == Part.Text(p.content + delta.text, p.finished)
    ensures p.Reasoning? && delta.ThinkingDelta? ==> r == Reasoning(p.content + delta.thinking, p.summary, p.signature, p.finished)
    ensures p.Reasoning? && delta.SignatureDelta? ==> r == Reasoning(p.content, p.summary, Some(delta.signature), p.finished)
    ensures !(p.Text? && delta.TextDelta?) && !(p.Reasoning? && (delta.ThinkingDelta? || delta.SignatureDelta?)) ==> r == p
  {
    match delta
    case TextDelta(t) => if p.Text? then Part.Text(p.content + t, p.finished) else p
    case ThinkingDelta(t) => if p.Reasoning? then Reasoning(p.content + t, p.summary, p.signature, p.finished) else p
    case SignatureDelta(s) => if p.Reasoning? then Reasoning(p.content, p.summary, Some(s), p.finished) else p
    case InputJsonDelta(_) => p
  }

  /** The arguments a tool call gets when its block stops. */
  function StoppedArguments(current: Json, buffer: Option<ToolBuffer>, parse: string -> Option<Json>): Json {
    if buffer.Some? && parse(buffer.value.json).Some? then parse(buffer.value.json).value else current
  }

  /** The stop-reason mapping of the stream's `message_delta`. */
  function StreamFinish(reason: string): (f: FinishReason)
    ensures f == OutputTokens <==> reason == "max_tokens"
    ensures f == ToolCalls <==> reason == "tool_use"
    ensures f != OutputTokens && f != ToolCalls ==> f == Stop
  {
    match reason
    case "end_turn" => Stop
    case "max_tokens" => OutputTokens
    case "stop_sequence" => Stop
    case "tool_use" => ToolCalls
    case _ => Stop
  }

  function Lookup(m: map<nat, ToolBuffer>, k: nat): Option<ToolBuffer> {
    if k in m then Some(m[k]) else None
  }

  /** The effect of one event: the new state and whether a snapshot is yielded. */
  function Apply(d: Decoder, e: StreamEvent, parse: string -> Option<Json>): Step {
    match e
    case MessageStart(u) =>
      Next(d.(usage := Usage(Some(u.inputTokens), Some(u.outputTokens))), true)
    case ContentBlockStart(index, block) =>
      var buffers := if block.ToolUseBlock? then d.toolBuffers[index := ToolBuffer(block.id, block.name, "")] else d.toolBuffers;
      var parts := if StartPart(block).Some? then d.parts + [StartPart(block).value] else d.parts;
      Next(d.(parts := parts, toolBuffers := buffers), true)
    case ContentBlockDelta(index, delta) =>
      if index < |d.parts| then
        if delta.InputJsonDelta? then
          if index in d.toolBuffers then
            var b := d.toolBuffers[index];
            Next(d.(toolBuffers := d.toolBuffers[index := b.(json := b.json + delta.partialJson)]), true)
          else Next(d, true)
        else Next(d.(parts := d.parts[index := DeltaPart(d.parts[index], delta)]), true)
      else Next(d, true)
    case ContentBlockStop(index) =>
      if index < |d.parts| then
        var p := d.parts[index];
        if p.FunctionCall? then
          var args := StoppedArguments(p.arguments, Lookup(d.toolBuffers, index), parse);
          Next(d.(parts := d.parts[index := FunctionCall(p.id, p.name, args, p.signature, true)],
                  toolBuffers := d.toolBuffers - {index}), true)
        else Next(d.(parts := d.parts[index := MarkFinished(p)]), true)
      else Next(d, true)
    case MessageDelta(reason, u) =>
      var finish := if reason.Some? then StreamFinish(reason.value) else d.finish;
      var usage := if u.Some? then d.usage.(completionTokens := Some(u.value.outputTokens)) else d.usage;
      Next(d.(finish := finish, usage := usage), true)
    case MessageStop => Next(d, true)
    case Ping => Next(d, false)
    case ErrorEvent(t, m) => Fail(ProviderError("Stream error (" + t + "): " + m))
  }

  /** One item from the line framer: an event, a payload that did not
      deserialise, or an error passed through. */
  function Feed(d: Decoder, item: Incoming<StreamEvent>, parse: string -> Option<Json>): Step {
    match item
    case Event(e) => Apply(d, e, parse)
    case Malformed(reason, _) => Fail(ProviderError("JSON parse error: " + reason))
    case Failed(err) => Fail(err)
  }

  /** The whole stream from state `d`: the snapshots yielded and the error that ended it. */
  function Run(d: Decoder, items: seq<Incoming<StreamEvent>>, parse: string -> Option<Json>): StreamOutcome
    decreases |items|
  {
    if items == [] then StreamOutcome([], None)
    else match Feed(d, items[0], parse)
      case Fail(err) => StreamOutcome([], Some(err))
      case Next(d', emit) => Prepend(if emit then [Snapshot(d'.parts, d'.usage, d'.finish)] else [], Run(d', items[1..], parse))
  }

  // ----- Stream decoder: the loop -----

  /** The body of the decoder loop for one event: updates the response and
      the tool buffers in place and says whether to yield. */
  method Handle(d: Decoder, e: StreamEvent, parse: string -> Option<Json>)
    returns (next: Decoder, emit: bool, error: Option<ClientError>)
    ensures error.Some? ==> Apply(d, e, parse) == Fail(error.value)
    ensures error.None? ==> Apply(d, e, parse) == Next(next, emit)
  {
    var parts, usage, finish, toolBuffers := d.parts, d.usage, d.finish, d.toolBuffers;
    emit, error := true, None;
    match e {
      case MessageStart(u) =>
        usage := Usage(Some(u.inputTokens), Some(u.outputTokens));
      case ContentBlockStart(index, block) =>
        match block {
          case TextBlock(t) =>
            parts := parts + [Part.Text(t, false)];
          case ToolUseBlock(id, name, _) =>
            toolBuffers := toolBuffers[index := ToolBuffer(id, name, "")];
            parts := parts + [FunctionCall(Some(id), name, Null, None, false)];
          case ThinkingBlock(t, sig) =>
            parts := parts + [Reasoning(t, None, Some(sig), false)];
          case _ =>
        }
      case ContentBlockDelta(index, delta) =>
        if index < |parts| {
          match delta {
            case InputJsonDelta(fragment) =>
              if index in toolBuffers {
                toolBuffers := toolBuffers[index := toolBuffers[index].(json := toolBuffers[index].json + fragment)];
              }
            case _ =>
              parts := parts[index := DeltaPart(parts[index], delta)];
          }
        }
      case ContentBlockStop(index) =>
        if index < |parts| {
          var p := parts[index];
          if p.FunctionCall? {
            var args := p.arguments;
            if index in toolBuffers {
              var buffered := toolBuffers[index];
              var parsed := parse(buffered.json);
              if parsed.Some? {
                args := parsed.value;
              }
            }
            toolBuffers := toolBuffers - {index};
            parts := parts[index := FunctionCall(p.id, p.name, args, p.signature, true)];
          } else {
            parts := parts[index := MarkFinished(p)];
          }
        }
      case MessageDelta(reason, u) =>
        if reason.Some? {
          finish := StreamFinish(reason.value);
        }
        if u.Some? {
          usage := usage.(completionTokens := Some(u.value.outputTokens));
        }
      case MessageStop =>
      case Ping =>
        emit := false;
      case ErrorEvent(t, m) =>
        error := Some(ProviderError("Stream error (" + t + "): " + m));
    }
    next := Decoder(parts, usage, finish, toolBuffers);
  }

  /** The decoder loop: reads items in order, updates the response and
      yields a copy after every event but `ping`; the first error ends it. */
  method Decode(items: seq<Incoming<StreamEvent>>, parse: string -> Option<Json>)
    returns (snapshots: seq<Response>, error: Option<ClientError>)
    ensures StreamOutcome(snapshots, error) == Run(Initial, items, parse)
  {
    var current := Initial;
    snapshots := [];
    var i := 0;
    while i < |items|
      invariant 0 <= i <= |items|
      invariant Prepend(snapshots, Run(current, items[i..], parse)) == Run(Initial, items, parse)
    {
      assert items[i..][0] == items[i] && items[i..][1..] == items[i + 1..];
      match items[i] {
        case Failed(err) =>
          return snapshots, Some(err);
        case Malformed(reason, _) =>
          return snapshots, Some(ProviderError("JSON parse error: " + reason));
        case Event(e) =>
          var next, emit, failure := Handle(current, e, parse);
          if failure.Some? {
            return snapshots, failure;
          }
          PrependAssoc(snapshots, if emit then [Snapshot(next.parts, next.usage, next.finish)] else [], Run(next, items[i + 1..], parse));
          if emit {
            snapshots := snapshots + [Snapshot(next.parts, next.usage, next.finish)];
          } else {
            assert snapshots + [] == snapshots;
          }
          current := next;
      }
      i := i + 1;
    }
    return snapshots, None;
  }

  // ----- Properties of the decoder -----

  /** Decoding starts from one empty Assistant message, no usage and an unfinished response. */
  lemma InitialSnapshot()
    ensures Snapshot(Initial.parts, Initial.usage, Initial.finish) == Response([Message.Assistant([])], NoUsage, Unfinished)
  {
  }

  predicate OneAssistant(r: Response) {
    |r.data| == 1 && r.data[0].Assistant?
  }

  /** Every snapshot holds exactly one message, the Assistant message being built. */
  lemma {:induction false} SnapshotsHoldOneAssistant(d: Decoder, items: seq<Incoming<StreamEvent>>, parse: string -> Option<Json>)
    ensures forall k :: 0 <= k < |Run(d, items, parse).snapshots| ==> OneAssistant(Run(d, items, parse).snapshots[k])
    decreases |items|
  {
    if items != [] {
      match Feed(d, items[0], parse)
      case Fail(_) =>
      case Next(d', emit) =>
        SnapshotsHoldOneAssistant(d', items[1..], parse);
        var here: seq<Response> := if emit then [Snapshot(d'.parts, d'.usage, d'.finish)] else [];
        var rest := Run(d', items[1..], parse).snapshots;
        assert Run(d, items, parse).snapshots == here + rest;
        forall k | 0 <= k < |here + rest|
          ensures OneAssistant((here + rest)[k])
        {
          if k < |here| {
            assert (here + rest)[k] == Snapshot(d'.parts, d'.usage, d'.finish);
          } else {
            assert (here + rest)[k] == rest[k - |here|];
          }
        }
    }
  }

  /** `message_start` sets both counters and `message_delta` overwrites the
      completion count: neither adds to what was there. */
  lemma UsageIsOverwritten(d: Decoder, u: TokenUsage, reason: Option<string>, parse: string -> Option<Json>)
    ensures Apply(d, MessageStart(u), parse).decoder.usage == Usage(Some(u.inputTokens), Some(u.outputTokens))
    ensures Apply(d, MessageDelta(reason, Some(u)), parse).decoder.usage == Usage(d.usage.promptTokens, Some(u.outputTokens))
    ensures Apply(d, MessageDelta(reason, None), parse).decoder.usage == d.usage
  {
  }

  /** A block start appends exactly one unfinished part for text, tool-use and
      thinking blocks and nothing for other kinds; a tool-use part starts with
      `Null` arguments and an empty buffer under its index. */
  lemma StartAppendsOnePart(d: Decoder, index: nat, block: Block, parse: string -> Option<Json>)
    ensures var n := Apply(d, ContentBlockStart(index, block), parse).decoder;
            && n.parts[..|d.parts|] == d.parts
            && (if StartPart(block).Some? then |n.parts| == |d.parts| + 1 && !n.parts[|d.parts|].finished
                else n.parts == d.parts)
            && (block.ToolUseBlock? ==>
                  n.parts[|d.parts|] == FunctionCall(Some(block.id), block.name, Null, None, false)
                  && index in n.toolBuffers && n.toolBuffers[index] == ToolBuffer(block.id, block.name, ""))
            && n.usage == d.usage && n.finish == d.finish
  {
    var n := Apply(d, ContentBlockStart(index, block), parse).decoder;
    if StartPart(block).Some? {
      assert n.parts == d.parts + [StartPart(block).value];
    }
  }

  /** A delta touches only the part at its index; out of range it changes
      nothing, and a kind mismatch leaves the part as it was. */
  lemma DeltaTouchesOnlyItsIndex(d: Decoder, index: nat, delta: Delta, parse: string -> Option<Json>)
    ensures var n := Apply(d, ContentBlockDelta(index, delta), parse).decoder;
            && |n.parts| == |d.parts|
            && (forall j :: 0 <= j < |d.parts| && j != index ==> n.parts[j] == d.parts[j])
            && (index >= |d.parts| ==> n == d)
            && (index < |d.parts| && !delta.InputJsonDelta? ==> n.parts[index] == DeltaPart(d.parts[index], delta))
            && n.usage == d.usage && n.finish == d.finish
  {
  }

  /** A JSON fragment goes only into the buffer of its index, appended, and
      only when a part exists at that index. */
  lemma JsonDeltaAppendsToBuffer(d: Decoder, index: nat, fragment: string, parse: string -> Option<Json>)
    ensures var n := Apply(d, ContentBlockDelta(index, InputJsonDelta(fragment)), parse).decoder;
            && n.parts == d.parts
            && n.toolBuffers.Keys == d.toolBuffers.Keys
            && (forall k :: k in d.toolBuffers && k != index ==> n.toolBuffers[k] == d.toolBuffers[k])
            && (index in d.toolBuffers && index < |d.parts| ==>
                  n.toolBuffers[index] == d.toolBuffers[index].(json := d.toolBuffers[index].json + fragment))
            && (index !in d.toolBuffers || index >= |d.parts| ==> n.toolBuffers == d.toolBuffers)
  {
  }

  /** A block stop finishes the part at its index and nothing else; a tool
      call's buffer is removed and its arguments become the parsed buffer,
      staying as they were when parsing fails. */
  lemma StopFinishesItsPart(d: Decoder, index: nat, parse: string -> Option<Json>)
    requires index < |d.parts|
    ensures var n := Apply(d, ContentBlockStop(index), parse).decoder;
            && |n.parts| == |d.parts| && n.parts[index].finished
            && (forall j :: 0 <= j < |d.parts| && j != index ==> n.parts[j] == d.parts[j])
            && (d.parts[index].FunctionCall? ==>
                  && index !in n.toolBuffers
                  && n.parts[index].FunctionCall?
                  && n.parts[index].arguments ==
                       (if index in d.toolBuffers && parse(d.toolBuffers[index].json).Some?
                        then parse(d.toolBuffers[index].json).value else d.parts[index].arguments))
            && (!d.parts[index].FunctionCall? ==> n.parts[index] == MarkFinished(d.parts[index]) && n.toolBuffers == d.toolBuffers)
  {
  }

  /** Unfinished tool calls carry `Null` arguments: they are only set when the block stops. */
  ghost predicate PendingCallsAreNull(d: Decoder) {
    forall j :: 0 <= j < |d.parts| && d.parts[j].FunctionCall? && !d.parts[j].finished ==> d.parts[j].arguments == Null
  }

  lemma ApplyKeepsPendingCallsNull(d: Decoder, e: StreamEvent, parse: string -> Option<Json>)
    requires PendingCallsAreNull(d)
    ensures Apply(d, e, parse).Next? ==> PendingCallsAreNull(Apply(d, e, parse).decoder)
  {
    match e
    case ContentBlockStart(index, block) =>
      var n := Apply(d, e, parse).decoder;
      forall j | 0 <= j < |n.parts| && n.parts[j].FunctionCall? && !n.parts[j].finished
        ensures n.parts[j].arguments == Null
      {
        if j < |d.parts| {
          assert n.parts[j] == d.parts[j];
        }
      }
    case _ =>
  }

  /** Items that end the stream with an error. */
  predicate Aborts(item: Incoming<StreamEvent>) {
    !item.Event? || item.event.ErrorEvent?
  }

  /** Items that yield a snapshot. */
  predicate Yields(item: Incoming<StreamEvent>) {
    item.Event? && !item.event.Ping? && !item.event.ErrorEvent?
  }

  /** The stream fails exactly when some item aborts it; otherwise it yields
      one snapshot per event other than `ping`. */
  lemma {:induction false} OneSnapshotPerEvent(d: Decoder, items: seq<Incoming<StreamEvent>>, parse: string -> Option<Json>)
    ensures Run(d, items, parse).error.None? <==> forall k :: 0 <= k < |items| ==> !Aborts(items[k])
    ensures Run(d, items, parse).error.None? ==> |Run(d, items, parse).snapshots| == Count(items, Yields)
    decreases |items|
  {
    if items != [] {
      assert forall k :: 1 <= k < |items| ==> items[k] == items[1..][k - 1];
      match Feed(d, items[0], parse)
      case Fail(_) =>
        assert Aborts(items[0]);
      case Next(d', emit) =>
        OneSnapshotPerEvent(d', items[1..], parse);
        assert !Aborts(items[0]) && (emit <==> Yields(items[0]));
    }
  }

  /** The first error event ends the stream with that error. */
  lemma ErrorEventAborts(d: Decoder, t: string, m: string, rest: seq<Incoming<StreamEvent>>, parse: string -> Option<Json>)
    ensures Run(d, [Event(ErrorEvent(t, m))] + rest, parse) == StreamOutcome([], Some(ProviderError("Stream error (" + t + "): " + m)))
  {
    assert ([Event(ErrorEvent(t, m))] + rest)[0] == Event(ErrorEvent(t, m));
  }

  /** `ping` neither changes the state nor yields. */
  lemma PingIsSilent(d: Decoder, rest: seq<Incoming<StreamEvent>>, parse: string -> Option<Json>)
    ensures Run(d, [Event(Ping)] + rest, parse) == Run(d, rest, parse)
  {
    var items := [Event(Ping)] + rest;
    assert items[0] == Event(Ping) && items[1..] == rest;
    assert [] + Run(d, rest, parse).snapshots == Run(d, rest, parse).snapshots;
  }

  // ----- Block index versus part position -----

  /** When block indices and part positions agree, a text delta reaches the
      part its block started. */
  lemma AlignedDeltaReachesItsBlock(d: Decoder, t: string, more: string, parse: string -> Option<Json>)
    ensures var started := Apply(d, ContentBlockStart(|d.parts|, TextBlock(t)), parse).decoder;
            Apply(started, ContentBlockDelta(|d.parts|, TextDelta(more)), parse).decoder.parts
              == d.parts + [Part.Text(t + more, false)]
  {
    var started := Apply(d, ContentBlockStart(|d.parts|, TextBlock(t)), parse).decoder;
    assert started.parts == d.parts + [Part.Text(t, false)];
  }

  /** As written, the block index is used as the part position, but a
      `redacted_thinking` block pushes no part: the text block after it starts
      at position 0 under index 1, so its delta and its stop find no part. */
  lemma RedactedThinkingShiftsIndices(parse: string -> Option<Json>)
    ensures var d1 := Apply(Initial, ContentBlockStart(0, RedactedThinkingBlock("r")), parse).decoder;
            var d2 := Apply(d1, ContentBlockStart(1, TextBlock("")), parse).decoder;
            var d3 := Apply(d2, ContentBlockDelta(1, TextDelta("hi")), parse).decoder;
            var d4 := Apply(d3, ContentBlockStop(1), parse).decoder;
            d4.parts == [Part.Text("", false)]
  {
  }

  /** The corrected decoder state: the part position of every block index
      that pushed a part. */
  datatype IndexedDecoder = IndexedDecoder(positions: map<nat, nat>, inner: Decoder)

  datatype IndexedStep = IndexedNext(state: IndexedDecoder, emit: bool) | IndexedFail(error: ClientError)

  /** The position an event's index addresses; an index with no part maps past the end. */
  function PositionOf(x: IndexedDecoder, index: nat): nat {
    if index in x.positions then x.positions[index] else |x.inner.parts|
  }

  function Lift(step: Step, positions: map<nat, nat>): IndexedStep {
    match step
    case Next(d, emit) => IndexedNext(IndexedDecoder(positions, d), emit)
    case Fail(err) => IndexedFail(err)
  }

  /** One event, with block indices translated to part positions. */
  function ApplyIndexed(x: IndexedDecoder, e: StreamEvent, parse: string -> Option<Json>): IndexedStep {
    match e
    case ContentBlockStart(index, block) =>
      var positions := if StartPart(block).Some? then x.positions[index := |x.inner.parts|] else x.positions - {index};
      Lift(Apply(x.inner, ContentBlockStart(|x.inner.parts|, block), parse), positions)
    case ContentBlockDelta(index, delta) =>
      Lift(Apply(x.inner, ContentBlockDelta(PositionOf(x, index), delta), parse), x.positions)
    case ContentBlockStop(index) =>
      Lift(Apply(x.inner, ContentBlockStop(PositionOf(x, index)), parse), x.positions)
    case _ =>
      Lift(Apply(x.inner, e, parse), x.positions)
  }

  /** Corrected: a text delta reaches the part its block started, whatever
      blocks came before. */
  lemma IndexedDeltaReachesItsBlock(x: IndexedDecoder, index: nat, t: string, more: string, parse: string -> Option<Json>)
    ensures var started := ApplyIndexed(x, ContentBlockStart(index, TextBlock(t)), parse).state;
            ApplyIndexed(started, ContentBlockDelta(index, TextDelta(more)), parse).state.inner.parts
              == x.inner.parts + [Part.Text(t + more, false)]
  {
    AlignedDeltaReachesItsBlock(x.inner, t, more, parse);
  }

  /** Corrected: the events of the counterexample give the finished text. */
  lemma IndexedRedactedThinking(parse: string -> Option<Json>)
    ensures var x1 := ApplyIndexed(IndexedDecoder(map[], Initial), ContentBlockStart(0, RedactedThinkingBlock("r")), parse).state;
            var x2 := ApplyIndexed(x1, ContentBlockStart(1, TextBlock("")), parse).state;
            var x3 := ApplyIndexed(x2, ContentBlockDelta(1, TextDelta("hi")), parse).state;
            var x4 := ApplyIndexed(x3, ContentBlockStop(1), parse).state;
            x4.inner.parts == [Part.Text("hi", true)]
  {
    var x1 := ApplyIndexed(IndexedDecoder(map[], Initial), ContentBlockStart(0, RedactedThinkingBlock("r")), parse).state;
    assert x1.inner.parts == [] && 0 !in x1.positions && 1 !in x1.positions;
    var x2 := ApplyIndexed(x1, ContentBlockStart(1, TextBlock("")), parse).state;
    assert x2.inner.parts == [Part.Text("", false)] && x2.positions[1] == 0;
    var x3 := ApplyIndexed(x2, ContentBlockDelta(1, TextDelta("hi")), parse).state;
    assert "" + "hi" == "hi";
    assert x3.inner.parts == [Part.Text("hi", false)] && x3.positions == x2.positions;
  }

  // ----- Whole response -----

  datatype MessageResponse = MessageResponse(content: seq<Block>, stopReason: Option<string>, usage: TokenUsage)

  /** The finished part a content block of a whole response becomes, if any. */
  function ResponsePart(b: Block): (r: Option<Part>)
    ensures r.Some? ==> r.value.finished
  {
    match b
    case TextBlock(t) => Some(Part.Text(t, true))
    case ToolUseBlock(id, name, input) => Some(FunctionCall(Some(id), name, input, None, true))
    case ThinkingBlock(t, sig) => Some(Reasoning(t, None, Some(sig), true))
    case _ => None
  }

  predicate Kept(b: Block) {
    ResponsePart(b).Some?
  }

  function ResponseParts(bs: seq<Block>): (r: seq<Part>)
    ensures |r| == Count(bs, Kept)
    ensures AllFinished(r)
  {
    if bs == [] then []
    else (if Kept(bs[0]) then [ResponsePart(bs[0]).value] else []) + ResponseParts(bs[1..])
  }

  /** The stop-reason mapping of a whole response; an absent reason is `Stop`. */
  function WholeFinish(reason: Option<string>): FinishReason {
    match reason
    case Some("end_turn") => Stop
    case Some("max_tokens") => OutputTokens
    case Some("stop_sequence") => Stop
    case Some("tool_use") => ToolCalls
    case _ => Stop
  }

  /** A whole response: one Assistant message of finished parts, one per kept
      block in block order, both usage counters present, and the stop reason
      mapped (an absent one is `Stop`). */
  function ToResponse(r: MessageResponse): (resp: Response)
    ensures resp.data == [Message.Assistant(ResponseParts(r.content))]
    ensures AllFinished(resp.data[0].parts) && |resp.data[0].parts| == Count(r.content, Kept)
    ensures resp.usage == Usage(Some(r.usage.inputTokens), Some(r.usage.outputTokens))
    ensures resp.finish == WholeFinish(r.stopReason) && resp.finish != Unfinished
  {
    Response([Message.Assistant(ResponseParts(r.content))],
             Usage(Some(r.usage.inputTokens), Some(r.usage.outputTokens)),
             WholeFinish(r.stopReason))
  }

  /** The stream and the whole response map every stop reason alike. */
  lemma StopReasonsAgree(reason: string)
    ensures StreamFinish(reason) == WholeFinish(Some(reason))
    ensures WholeFinish(None) == Stop
  {
  }

  /** The stream decodes the same block kinds as the whole response: a started
      block, once stopped, is the whole response's part, except that a tool
      call's arguments come from its buffer rather than the block's input. */
  lemma StartAgreesWithWhole(b: Block)
    ensures StartPart(b).Some? <==> ResponsePart(b).Some?
    ensures StartPart(b).Some? && !b.ToolUseBlock? ==> ResponsePart(b).value == MarkFinished(StartPart(b).value)
    ensures b.ToolUseBlock? ==>
              ResponsePart(b).value == FunctionCall(Some(b.id), b.name, b.input, None, true)
              && StartPart(b).value == FunctionCall(Some(b.id), b.name, Null, None, false)
  {
  }

  // ----- Request -----

  datatype RequestMessage = RequestMessage(role: string, content: seq<Block>)

  datatype ThinkingConfig = Enabled(budgetTokens: nat) | Disabled

  datatype RequestTool = RequestTool(name: string, description: Option<string>, inputSchema: Json)

  /** The options the request reads; sampling and pass-through settings are left out. */
  datatype Options = Options(system: Option<string>, maxTokens: Option<nat>, reasoning: Option<bool>, thinkingBudget: Option<nat>)

  datatype Request = Request(
    model: string,
    messages: seq<RequestMessage>,
    maxTokens: nat,
    system: Option<seq<string>>,
    stream: Option<bool>,
    tools: seq<RequestTool>,
    thinking: Option<ThinkingConfig>)

  /** The text of a text or binary attachment: its base64 payload decoded as
      UTF-8, or the raw payload when that fails. */
  function MediaText(data: string, decodeText: string -> Option<string>): string {
    decodeText(data).GetOr(data)
  }

  /** The tool-result items for a function response's value and attachments. */
  function ResultItems(response: Json, parts: seq<Part>, decodeText: string -> Option<string>, serialize: Json -> string): seq<ToolResultItem> {
    (if response != EmptyObject then [ResultText(serialize(response))] else []) + AttachmentItems(parts, decodeText)
  }

  function AttachmentItems(parts: seq<Part>, decodeText: string -> Option<string>): seq<ToolResultItem> {
    if parts == [] then []
    else
      var p := parts[0];
      var here := if p.Media? then
                    [ResultText(AnchorMedia(p))]
                    + (if p.mediaType.Image? then [ResultImage(Base64(p.mimeType, p.data))]
                       else [ResultText(MediaText(p.data, decodeText))])
                  else [];
      here + AttachmentItems(parts[1..], decodeText)
  }

  /** The blocks one part becomes. */
  function PartBlocks(p: Part, decodeText: string -> Option<string>, serialize: Json -> string): (r: seq<Block>)
    ensures (p.FunctionCall? || p.FunctionResponse?) ==> (r == [] <==> p.id.None?)
    ensures p.Text? || p.Reasoning? || p.Media? ==> r != []
  {
    match p
    case Text(t, _) => [TextBlock(t)]
    case Media(mt, data, mime, _, _) =>
      [TextBlock(AnchorMedia(p))]
      + (match mt
         case Image => [ImageBlock(Base64(mime, data))]
         case Document => [DocumentBlock(Base64(mime, data))]
         case _ => [TextBlock(MediaText(data, decodeText))])
    case FunctionCall(id, name, args, _, _) =>
      if id.Some? then [ToolUseBlock(id.value, name, args)] else []
    case FunctionResponse(id, _, response, parts, _) =>
      if id.Some? then [ToolResultBlock(id.value, ResultItems(response, parts, decodeText, serialize), None)] else []
    case Reasoning(content, _, signature, _) => [ThinkingBlock(content, signature.GetOr(""))]
  }

  function MessageBlocks(ps: seq<Part>, decodeText: string -> Option<string>, serialize: Json -> string): seq<Block> {
    if ps == [] then [] else PartBlocks(ps[0], decodeText, serialize) + MessageBlocks(ps[1..], decodeText, serialize)
  }

  function RoleName(m: Message): (r: string)
    ensures r == (if m.User? then "user" else "assistant")
  {
    match m
    case User(_) => "user"
    case Assistant(_) => "assistant"
  }

  /** The request messages: one per message that has at least one block, in order. */
  function RequestMessages(ms: seq<Message>, decodeText: string -> Option<string>, serialize: Json -> string): (r: seq<RequestMessage>)
    ensures |r| <= |ms|
    ensures forall k :: 0 <= k < |r| ==> r[k].content != [] && (r[k].role == "user" || r[k].role == "assistant")
  {
    if ms == [] then []
    else
      var blocks := MessageBlocks(ms[0].parts, decodeText, serialize);
      (if blocks == [] then [] else [RequestMessage(RoleName(ms[0]), blocks)])
      + RequestMessages(ms[1..], decodeText, serialize)
  }

  /** Thinking is enabled only when reasoning is explicitly on, with a budget of 1024 unless set. */
  function ThinkingFor(o: Options): (r: Option<ThinkingConfig>)
    ensures r.Some? <==> o.reasoning == Some(true)
    ensures r.Some? ==> r.value == Enabled(if o.thinkingBudget.Some? then o.thinkingBudget.value else 1024)
  {
    if o.reasoning.GetOr(false) then Some(Enabled(o.thinkingBudget.GetOr(1024))) else None
  }

  function RequestToolOf(t: Tool): (r: RequestTool)
    ensures r.name == t.name && r.description == t.description && r.inputSchema == Object(t.inputSchema)
  {
    RequestTool(t.name, t.description, Object(t.inputSchema))
  }

  function BuildRequest(model: string, ms: seq<Message>, tools: seq<Tool>, o: Options, stream: bool,
                        decodeText: string -> Option<string>, serialize: Json -> string): (r: Request)
    ensures r.model == model && r.messages == RequestMessages(ms, decodeText, serialize)
    ensures r.maxTokens == (if o.maxTokens.Some? then o.maxTokens.value else 1024)
    ensures r.system == (if o.system.Some? then Some([o.system.value]) else None)
    ensures r.stream == (if stream then Some(true) else None)
    ensures |r.tools| == |tools| && forall k :: 0 <= k < |tools| ==> r.tools[k] == RequestToolOf(tools[k])
    ensures r.thinking == ThinkingFor(o)
  {
    Request(model, RequestMessages(ms, decodeText, serialize), o.maxTokens.GetOr(1024),
            if o.system.Some? then Some([o.system.value]) else None,
            if stream then Some(true) else None,
            seq(|tools|, k requires 0 <= k < |tools| => RequestToolOf(tools[k])),
            ThinkingFor(o))
  }

  // ----- Properties of the request -----

  predicate HasBlocks(m: Message, decodeText: string -> Option<string>, serialize: Json -> string) {
    MessageBlocks(m.parts, decodeText, serialize) != []
  }

  /** A message is sent exactly when it has a block: the request holds one
      message per such message. */
  lemma {:induction false} EmptyMessagesOmitted(ms: seq<Message>, decodeText: string -> Option<string>, serialize: Json -> string)
    ensures |RequestMessages(ms, decodeText, serialize)| == Count(ms, m => HasBlocks(m, decodeText, serialize))
    decreases |ms|
  {
    if ms != [] {
      EmptyMessagesOmitted(ms[1..], decodeText, serialize);
    }
  }

  /** The k-th request message is the k-th message that has a block: a user
      message goes out as `user`, an assistant message as `assistant`, each
      carrying its own parts' blocks. */
  lemma {:induction false} RequestFollowsMessages(ms: seq<Message>, decodeText: string -> Option<string>, serialize: Json -> string)
    ensures var sent := Filter(ms, m => HasBlocks(m, decodeText, serialize));
            |RequestMessages(ms, decodeText, serialize)| == |sent|
            && forall k :: 0 <= k < |sent| ==>
                 RequestMessages(ms, decodeText, serialize)[k].role == (if sent[k].User? then "user" else "assistant")
                 && RequestMessages(ms, decodeText, serialize)[k].content == MessageBlocks(sent[k].parts, decodeText, serialize)
    decreases |ms|
  {
    if ms != [] {
      RequestFollowsMessages(ms[1..], decodeText, serialize);
      var sent := Filter(ms, m => HasBlocks(m, decodeText, serialize));
      var rest := Filter(ms[1..], m => HasBlocks(m, decodeText, serialize));
      var out, tail := RequestMessages(ms, decodeText, serialize), RequestMessages(ms[1..], decodeText, serialize);
      var blocks := MessageBlocks(ms[0].parts, decodeText, serialize);
      if blocks != [] {
        assert sent == [ms[0]] + rest;
        assert out == [RequestMessage(RoleName(ms[0]), blocks)] + tail;
        forall k | 1 <= k < |sent|
          ensures out[k] == tail[k - 1] && sent[k] == rest[k - 1]
        {
        }
      } else {
        assert sent == rest;
        assert out == tail;
      }
    }
  }

  predicate IsAssistantEntry(r: RequestMessage) { r.role == "assistant" }
  predicate IsUserEntry(r: RequestMessage) { r.role == "user" }

  /** Every assistant message with a block becomes one `assistant` entry and
      every user message with a block one `user` entry. */
  lemma {:induction false} RolesFollowSenders(ms: seq<Message>, decodeText: string -> Option<string>, serialize: Json -> string)
    ensures Count(RequestMessages(ms, decodeText, serialize), IsAssistantEntry)
            == Count(ms, (m: Message) => m.Assistant? && HasBlocks(m, decodeText, serialize))
    ensures Count(RequestMessages(ms, decodeText, serialize), IsUserEntry)
            == Count(ms, (m: Message) => m.User? && HasBlocks(m, decodeText, serialize))
    decreases |ms|
  {
    if ms != [] {
      RolesFollowSenders(ms[1..], decodeText, serialize);
      var blocks := MessageBlocks(ms[0].parts, decodeText, serialize);
      var head := if blocks == [] then [] else [RequestMessage(RoleName(ms[0]), blocks)];
      var tail := RequestMessages(ms[1..], decodeText, serialize);
      assert RequestMessages(ms, decodeText, serialize) == head + tail;
      CountAppend(head, tail, IsAssistantEntry);
      CountAppend(head, tail, IsUserEntry);
    }
  }

  predicate IsToolUse(b: Block) { b.ToolUseBlock? }

  predicate IsCallWithId(p: Part) { p.FunctionCall? && p.id.Some? }

  /** The blocks of one part hold a `tool_use` block exactly when it is a call with an id. */
  lemma PartToolUses(p: Part, decodeText: string -> Option<string>, serialize: Json -> string)
    ensures Count(PartBlocks(p, decodeText, serialize), IsToolUse) == (if IsCallWithId(p) then 1 else 0)
  {
    var here := PartBlocks(p, decodeText, serialize);
    if p.Media? {
      assert here[1..][1..] == [];
    } else {
      assert here == [] || here[1..] == [];
    }
  }

  /** One `tool_use` block per function call that has an id: calls without an id are dropped. */
  lemma {:induction false} OneToolUsePerCallWithId(ps: seq<Part>, decodeText: string -> Option<string>, serialize: Json -> string)
    ensures Count(MessageBlocks(ps, decodeText, serialize), IsToolUse) == Count(ps, IsCallWithId)
    decreases |ps|
  {
    if ps != [] {
      OneToolUsePerCallWithId(ps[1..], decodeText, serialize);
      PartToolUses(ps[0], decodeText, serialize);
      CountAppend(PartBlocks(ps[0], decodeText, serialize), MessageBlocks(ps[1..], decodeText, serialize), IsToolUse);
    }
  }

  /** Parts an assistant turn sends back unchanged: text, tool calls with an id
      and no signature, and reasoning with a signature and no summary. */
  predicate Echoable(p: Part) {
    || p.Text?
    || (p.FunctionCall? && p.id.Some? && p.signature.None?)
    || (p.Reasoning? && p.summary.None? && p.signature.Some?)
  }

  /** Decoding the blocks a message of such parts is sent as gives its parts back, finished. */
  lemma {:induction false} RequestThenResponse(ps: seq<Part>, decodeText: string -> Option<string>, serialize: Json -> string)
    requires forall k :: 0 <= k < |ps| ==> Echoable(ps[k])
    ensures ResponseParts(MessageBlocks(ps, decodeText, serialize)) == FinishAll(ps)
    decreases |ps|
  {
    if ps != [] {
      RequestThenResponse(ps[1..], decodeText, serialize);
      ResponsePartsAppend(PartBlocks(ps[0], decodeText, serialize), MessageBlocks(ps[1..], decodeText, serialize));
      EchoPart(ps[0], decodeText, serialize);
      assert FinishAll(ps) == [MarkFinished(ps[0])] + FinishAll(ps[1..]);
    }
  }

  /** A whole response carrying the blocks an assistant turn of such parts is
      sent as reads back as that turn, finished, with the reason the stream
      would give for the same stop reason. */
  lemma WholeResponseEchoes(ps: seq<Part>, reason: string, usage: TokenUsage,
                            decodeText: string -> Option<string>, serialize: Json -> string)
    requires forall k :: 0 <= k < |ps| ==> Echoable(ps[k])
    ensures var resp := ToResponse(MessageResponse(MessageBlocks(ps, decodeText, serialize), Some(reason), usage));
            && resp.data == [Message.Assistant(FinishAll(ps))]
            && resp.finish == StreamFinish(reason)
  {
    RequestThenResponse(ps, decodeText, serialize);
    StopReasonsAgree(reason);
  }

  lemma EchoPart(p: Part, decodeText: string -> Option<string>, serialize: Json -> string)
    requires Echoable(p)
    ensures ResponseParts(PartBlocks(p, decodeText, serialize)) == [MarkFinished(p)]
  {
    var here := PartBlocks(p, decodeText, serialize);
    assert |here| == 1 && here[1..] == [];
  }

  lemma {:induction false} ResponsePartsAppend(xs: seq<Block>, ys: seq<Block>)
    ensures ResponseParts(xs + ys) == ResponseParts(xs) + ResponseParts(ys)
    decreases |xs|
  {
    if xs == [] {
      assert xs + ys == ys;
    } else {
      assert (xs + ys)[0] == xs[0] && (xs + ys)[1..] == xs[1..] + ys;
      ResponsePartsAppend(xs[1..], ys);
    }
  }
}
