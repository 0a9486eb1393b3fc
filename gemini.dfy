/** The Gemini generateContent protocol: the incremental stream decoder, the
    conversion of a whole response, and the building of a request. */
module Gemini {
  import opened Model

  // ----- Wire types -----

  /** Inline bytes: a MIME type and a base64 payload. */
  datatype Blob = Blob(mimeType: string, data: string)

  /** One part of a content entry, in either direction. */
  datatype WirePart =
    | WireText(text: string, thought: Option<bool>)
    | WireCall(name: string, args: Json, thoughtSignature: Option<string>)
    | WireResponse(name: string, response: Json, parts: Option<seq<Blob>>)
    | WireInline(blob: Blob)

  /** A content entry: a role name and its parts. */
  datatype Turn = Turn(role: string, parts: seq<WirePart>)

  datatype Candidate = Candidate(content: Option<Turn>, finishReason: Option<string>)

  /** The token counts of a chunk; the total count is not read. */
  datatype UsageMetadata = UsageMetadata(promptTokenCount: nat, candidatesTokenCount: Option<nat>, thoughtsTokenCount: Option<nat>)

  /** A deserialised response body: one stream chunk, or a whole response. */
  datatype GenerateResponse = GenerateResponse(candidates: Option<seq<Candidate>>, usageMetadata: Option<UsageMetadata>)

  // ----- Shared mappings -----

  /** The usage a metadata record stands for: the completion count is the
      candidates count plus the thoughts count, an absent count being 0. */
  function UsageOf(m: UsageMetadata): Usage {
    Usage(Some(m.promptTokenCount), Some(m.candidatesTokenCount.GetOr(0) + m.thoughtsTokenCount.GetOr(0)))
  }

  function FinishFor(reason: string): FinishReason {
    match reason
    case "STOP" => Stop
    case "MAX_TOKENS" => OutputTokens
    case "SAFETY" => ContentFilter
    case "RECITATION" => ContentFilter
    case _ => Stop
  }

  /** Every finish reason maps to `Stop`, `OutputTokens` or `ContentFilter`:
      never to `ToolCalls`, and never to the unfinished default. */
  lemma FinishReasons(reason: string)
    ensures FinishFor(reason) == OutputTokens <==> reason == "MAX_TOKENS"
    ensures FinishFor(reason) == ContentFilter <==> reason == "SAFETY" || reason == "RECITATION"
    ensures FinishFor(reason) == Stop <==> reason != "MAX_TOKENS" && reason != "SAFETY" && reason != "RECITATION"
  {
  }

  // ----- Stream decoder: one part -----

  /** The kind of the last part the decoder read. */
  datatype Kind = TextKind | ReasoningKind | CallKind

  /** The decoder's state: the parts of its one Assistant message, usage,
      finish, and the kind of the last text, thought or call part read. */
  datatype Decoder = Decoder(parts: seq<Part>, usage: Usage, finish: FinishReason, lastKind: Option<Kind>)

  const Initial: Decoder := Decoder([], NoUsage, Unfinished, None)

  function KindFor(thought: bool): Kind {
    if thought then ReasoningKind else TextKind
  }

  /** The last part marked finished, if it is a text or reasoning part, or a
      call when `closeCalls` is set. */
  function CloseLast(ps: seq<Part>, closeCalls: bool): seq<Part> {
    if ps == [] then ps
    else
      var p := ps[|ps| - 1];
      if p.Text? || p.Reasoning? || (closeCalls && p.FunctionCall?) then ps[|ps| - 1 := MarkFinished(p)] else ps
  }

  /** Whether text of the given kind extends the last part: it must be
      unfinished and of that kind. */
  predicate Continues(ps: seq<Part>, thought: bool) {
    && ps != []
    && !ps[|ps| - 1].finished
    && (if thought then ps[|ps| - 1].Reasoning? else ps[|ps| - 1].Text?)
  }

  function AppendText(p: Part, t: string): Part {
    match p
    case Text(c, f) => Part.Text(c + t, f)
    case Reasoning(c, s, sig, f) => Reasoning(c + t, s, sig, f)
    case _ => p
  }

  function NewTextual(t: string, thought: bool): Part {
    if thought then Reasoning(t, None, None, false) else Part.Text(t, false)
  }

  /** The effect of one part of the first candidate's content. */
  function StreamPart(d: Decoder, wp: WirePart): Decoder {
    match wp
    case WireText(t, thought) =>
      var isThought := thought.GetOr(false);
      var kind := KindFor(isThought);
      var ps := if d.lastKind.Some? && d.lastKind.value != kind then CloseLast(d.parts, true) else d.parts;
      var ps' := if Continues(ps, isThought) then ps[|ps| - 1 := AppendText(ps[|ps| - 1], t)] else ps + [NewTextual(t, isThought)];
      d.(parts := ps', lastKind := Some(kind))
    case WireCall(name, args, sig) =>
      var ps := if d.lastKind.Some? && d.lastKind.value != CallKind then CloseLast(d.parts, false) else d.parts;
      d.(parts := ps + [FunctionCall(None, name, args, sig, false)], lastKind := Some(CallKind))
    case _ => d
  }

  function StreamParts(d: Decoder, wps: seq<WirePart>): Decoder
    decreases |wps|
  {
    if wps == [] then d else StreamParts(StreamPart(d, wps[0]), wps[1..])
  }

  // ----- Stream decoder: one chunk -----

  /** The effect of one chunk: its usage, then the first candidate's parts,
      then its finish reason. */
  function Apply(d: Decoder, r: GenerateResponse): Decoder {
    var d1 := if r.usageMetadata.Some? then d.(usage := UsageOf(r.usageMetadata.value)) else d;
    if r.candidates.Some? && r.candidates.value != [] then
      var c := r.candidates.value[0];
      var d2 := if c.content.Some? then StreamParts(d1, c.content.value.parts) else d1;
      if c.finishReason.Some? then d2.(parts := FinishAll(d2.parts), finish := FinishFor(c.finishReason.value)) else d2
    else d1
  }

  /** One item from the line framer: a chunk, a payload that did not
      deserialise, or an error passed through. */
  function Feed(d: Decoder, item: Incoming<GenerateResponse>): Result<Decoder, ClientError> {
    match item
    case Event(r) => Ok(Apply(d, r))
    case Malformed(reason, _) => Err(ProviderError("JSON parse error: " + reason))
    case Failed(err) => Err(err)
  }

  /** The whole stream from state `d`: one snapshot per chunk, and the error that ended it. */
  function Run(d: Decoder, items: seq<Incoming<GenerateResponse>>): StreamOutcome
    decreases |items|
  {
    if items == [] then StreamOutcome([], None)
    else match Feed(d, items[0])
      case Err(err) => StreamOutcome([], Some(err))
      case Ok(d') => Prepend([Snapshot(d'.parts, d'.usage, d'.finish)], Run(d', items[1..]))
  }

  // ----- Stream decoder: the loops -----

  /** The body of the loop over a candidate's parts: one wire part. */
  method AbsorbPart(cur: Decoder, wp: WirePart) returns (next: Decoder)
    ensures next == StreamPart(cur, wp)
  {
    var parts, last := cur.parts, cur.lastKind;
    match wp {
      case WireText(t, thought) =>
        var isThought := thought.GetOr(false);
        var kind := if isThought then ReasoningKind else TextKind;
        if last.Some? && last.value != kind && |parts| > 0 {
          var p := parts[|parts| - 1];
          if p.Text? || p.Reasoning? || p.FunctionCall? {
            parts := parts[|parts| - 1 := MarkFinished(p)];
          }
        }
        last := Some(kind);
        if |parts| > 0 && !parts[|parts| - 1].finished
           && (if isThought then parts[|parts| - 1].Reasoning? else parts[|parts| - 1].Text?) {
          parts := parts[|parts| - 1 := AppendText(parts[|parts| - 1], t)];
        } else {
          parts := parts + [NewTextual(t, isThought)];
        }
      case WireCall(name, args, sig) =>
        if last.Some? && last.value != CallKind && |parts| > 0 {
          var p := parts[|parts| - 1];
          if p.Text? || p.Reasoning? {
            parts := parts[|parts| - 1 := MarkFinished(p)];
          }
        }
        last := Some(CallKind);
        parts := parts + [FunctionCall(None, name, args, sig, false)];
      case _ =>
    }
    next := cur.(parts := parts, lastKind := last);
  }

  /** The loop over the first candidate's parts, updating the parts and the
      last kind in place. */
  method AbsorbParts(d: Decoder, wps: seq<WirePart>) returns (next: Decoder)
    ensures next == StreamParts(d, wps)
  {
    next := d;
    var i := 0;
    while i < |wps|
      invariant 0 <= i <= |wps|
      invariant StreamParts(next, wps[i..]) == StreamParts(d, wps)
    {
      assert wps[i..][0] == wps[i] && wps[i..][1..] == wps[i + 1..];
      next := AbsorbPart(next, wps[i]);
      i := i + 1;
    }
    assert wps[i..] == [];
  }


  /** The loop marking every part finished. */
  method FinishParts(ps: seq<Part>) returns (parts: seq<Part>)
    ensures parts == FinishAll(ps)
  {
    parts := ps;
    var j := 0;
    while j < |parts|
      invariant 0 <= j <= |parts| == |ps|
      invariant forall k :: 0 <= k < j ==> parts[k] == MarkFinished(ps[k])
      invariant forall k :: j <= k < |parts| ==> parts[k] == ps[k]
    {
      parts := parts[j := MarkFinished(parts[j])];
      j := j + 1;
    }
  }

  /** The body of the decoder loop for one chunk. */
  method Handle(d: Decoder, r: GenerateResponse) returns (next: Decoder)
    ensures next == Apply(d, r)
  {
    next := d;
    if r.usageMetadata.Some? {
      var m := r.usageMetadata.value;
      next := next.(usage := Usage(Some(m.promptTokenCount), Some(m.candidatesTokenCount.GetOr(0) + m.thoughtsTokenCount.GetOr(0))));
    }
    if r.candidates.Some? && |r.candidates.value| > 0 {
      var c := r.candidates.value[0];
      if c.content.Some? {
        next := AbsorbParts(next, c.content.value.parts);
      }
      if c.finishReason.Some? {
        var parts := FinishParts(next.parts);
        next := next.(parts := parts, finish := FinishFor(c.finishReason.value));
      }
    }
  }

  /** The decoder loop: reads items in order and yields a copy of the
      response after every chunk; the first error ends it. */
  method Decode(items: seq<Incoming<GenerateResponse>>) returns (snapshots: seq<Response>, error: Option<ClientError>)
    ensures StreamOutcome(snapshots, error) == Run(Initial, items)
  {
    var current := Initial;
    snapshots := [];
    var i := 0;
    while i < |items|
      invariant 0 <= i <= |items|
      invariant Prepend(snapshots, Run(current, items[i..])) == Run(Initial, items)
    {
      assert items[i..][0] == items[i] && items[i..][1..] == items[i + 1..];
      match items[i] {
        case Failed(err) =>
          return snapshots, Some(err);
        case Malformed(reason, _) =>
          return snapshots, Some(ProviderError("JSON parse error: " + reason));
        case Event(r) =>
          var next := Handle(current, r);
          PrependAssoc(snapshots, [Snapshot(next.parts, next.usage, next.finish)], Run(next, items[i + 1..]));
          snapshots := snapshots + [Snapshot(next.parts, next.usage, next.finish)];
          current := next;
      }
      i := i + 1;
    }
    return snapshots, None;
  }

  // ----- Properties of the decoder -----

  /** A chunk's usage metadata replaces the usage outright, with the
      completion count the sum of the candidates and thoughts counts; a chunk
      without it leaves the usage alone. */
  lemma UsageIsOverwritten(d: Decoder, r: GenerateResponse)
    ensures r.usageMetadata.None? ==> Apply(d, r).usage == d.usage
    ensures r.usageMetadata.Some? ==>
              var m := r.usageMetadata.value;
              && Apply(d, r).usage.promptTokens == Some(m.promptTokenCount)
              && Apply(d, r).usage.completionTokens ==
                   Some((if m.candidatesTokenCount.Some? then m.candidatesTokenCount.value else 0)
                        + (if m.thoughtsTokenCount.Some? then m.thoughtsTokenCount.value else 0))
  {
    StreamPartsKeepsUsage(if r.usageMetadata.Some? then d.(usage := UsageOf(r.usageMetadata.value)) else d, r);
  }

  lemma StreamPartsKeepsUsage(d: Decoder, r: GenerateResponse)
    ensures r.candidates.Some? && r.candidates.value != [] && r.candidates.value[0].content.Some? ==>
              StreamParts(d, r.candidates.value[0].content.value.parts).usage == d.usage
  {
    if r.candidates.Some? && r.candidates.value != [] && r.candidates.value[0].content.Some? {
      StreamPartsFrame(d, r.candidates.value[0].content.value.parts);
    }
  }

  /** Parts never touch the usage or the finish reason. */
  lemma {:induction false} StreamPartsFrame(d: Decoder, wps: seq<WirePart>)
    ensures StreamParts(d, wps).usage == d.usage && StreamParts(d, wps).finish == d.finish
    decreases |wps|
  {
    if wps != [] {
      StreamPartsFrame(StreamPart(d, wps[0]), wps[1..]);
    }
  }

  function KindOf(p: Part): Option<Kind> {
    match p
    case Text(_, _) => Some(TextKind)
    case Reasoning(_, _, _, _) => Some(ReasoningKind)
    case FunctionCall(_, _, _, _, _) => Some(CallKind)
    case _ => None
  }

  /** The tracked kind is the kind of the last part, and no kind is tracked
      only while there are no parts. */
  predicate Consistent(d: Decoder) {
    if d.lastKind.None? then d.parts == [] else d.parts != [] && KindOf(d.parts[|d.parts| - 1]) == d.lastKind
  }

  lemma InitialIsConsistent()
    ensures Consistent(Initial)
    ensures Snapshot(Initial.parts, Initial.usage, Initial.finish) ==
            Response([Message.Assistant([])], NoUsage, Unfinished)
  {
  }

  /** Text or thought text extends the last part when that part is unfinished
      and of the same kind; when the kind changed, the last part is finished
      first and a new unfinished part holds the text; otherwise a new
      unfinished part holds it. */
  lemma TextPartMerges(d: Decoder, t: string, thought: Option<bool>)
    requires Consistent(d)
    ensures var isThought := thought.GetOr(false);
            var n := StreamPart(d, WireText(t, thought));
            var last := |d.parts| - 1;
            && n.lastKind == Some(KindFor(isThought))
            && (if d.parts != [] && d.lastKind == Some(KindFor(isThought)) && !d.parts[last].finished
                then n.parts == d.parts[last := AppendText(d.parts[last], t)]
                else if d.parts != [] && d.lastKind != Some(KindFor(isThought))
                then n.parts == d.parts[last := MarkFinished(d.parts[last])] + [NewTextual(t, isThought)]
                else n.parts == d.parts + [NewTextual(t, isThought)])
  {
    var isThought := thought.GetOr(false);
    if d.parts != [] && d.lastKind != Some(KindFor(isThought)) {
      var ps := CloseLast(d.parts, true);
      assert ps == d.parts[|d.parts| - 1 := MarkFinished(d.parts[|d.parts| - 1])];
      assert !Continues(ps, isThought);
    }
  }

  /** A call always adds one new unfinished call with no id and the chunk's
      name, arguments and signature: consecutive calls never merge. A text or
      thought part before it is finished first. */
  lemma CallPartPushes(d: Decoder, name: string, args: Json, sig: Option<string>)
    requires Consistent(d)
    ensures var n := StreamPart(d, WireCall(name, args, sig));
            var last := |d.parts| - 1;
            && n.lastKind == Some(CallKind)
            && n.parts == (if d.parts != [] && d.lastKind != Some(CallKind) then d.parts[last := MarkFinished(d.parts[last])] else d.parts)
                          + [FunctionCall(None, name, args, sig, false)]
  {
  }

  /** Function responses and inline data in a streamed chunk are ignored. */
  lemma OtherPartsIgnored(d: Decoder, wp: WirePart)
    requires wp.WireResponse? || wp.WireInline?
    ensures StreamPart(d, wp) == d
  {
  }

  lemma StreamPartKeepsConsistent(d: Decoder, wp: WirePart)
    requires Consistent(d)
    ensures Consistent(StreamPart(d, wp))
  {
    match wp
    case WireText(t, thought) =>
      TextPartMerges(d, t, thought);
    case WireCall(name, args, sig) =>
      CallPartPushes(d, name, args, sig);
    case _ =>
  }

  lemma {:induction false} StreamPartsKeepConsistent(d: Decoder, wps: seq<WirePart>)
    requires Consistent(d)
    ensures Consistent(StreamParts(d, wps))
    decreases |wps|
  {
    if wps != [] {
      StreamPartKeepsConsistent(d, wps[0]);
      StreamPartsKeepConsistent(StreamPart(d, wps[0]), wps[1..]);
    }
  }

  /** Every chunk keeps the tracked kind in step with the last part. */
  lemma ApplyKeepsConsistent(d: Decoder, r: GenerateResponse)
    requires Consistent(d)
    ensures Consistent(Apply(d, r))
  {
    var d1 := if r.usageMetadata.Some? then d.(usage := UsageOf(r.usageMetadata.value)) else d;
    if r.candidates.Some? && r.candidates.value != [] {
      var c := r.candidates.value[0];
      if c.content.Some? {
        StreamPartsKeepConsistent(d1, c.content.value.parts);
      }
    }
  }

  /** A finish reason closes every part and sets the mapped reason. */
  lemma FinishClosesEverything(d: Decoder, r: GenerateResponse)
    requires r.candidates.Some? && r.candidates.value != [] && r.candidates.value[0].finishReason.Some?
    ensures AllFinished(Apply(d, r).parts)
    ensures Apply(d, r).finish == FinishFor(r.candidates.value[0].finishReason.value)
    ensures Apply(d, r).finish != ToolCalls && Apply(d, r).finish != Unfinished
  {
  }

  /** Without a finish reason the finish is kept; without a candidate the
      parts and the tracked kind are kept too. */
  lemma NoReasonKeepsFinish(d: Decoder, r: GenerateResponse)
    requires r.candidates.None? || r.candidates.value == [] || r.candidates.value[0].finishReason.None?
    ensures Apply(d, r).finish == d.finish
    ensures r.candidates.None? || r.candidates.value == [] ==> Apply(d, r).parts == d.parts && Apply(d, r).lastKind == d.lastKind
  {
    if r.candidates.Some? && r.candidates.value != [] && r.candidates.value[0].content.Some? {
      StreamPartsFrame(if r.usageMetadata.Some? then d.(usage := UsageOf(r.usageMetadata.value)) else d,
                       r.candidates.value[0].content.value.parts);
    }
  }

  /** Only the first candidate is read. */
  lemma OnlyFirstCandidate(d: Decoder, c: Candidate, others: seq<Candidate>, u: Option<UsageMetadata>)
    ensures Apply(d, GenerateResponse(Some([c] + others), u)) == Apply(d, GenerateResponse(Some([c]), u))
  {
    assert ([c] + others)[0] == c;
  }

  /** The stream fails exactly when an item is not a chunk; otherwise it
      yields one snapshot per chunk, even a chunk with no candidate. */
  lemma {:induction false} OneSnapshotPerChunk(d: Decoder, items: seq<Incoming<GenerateResponse>>)
    ensures Run(d, items).error.None? <==> forall k :: 0 <= k < |items| ==> items[k].Event?
    ensures Run(d, items).error.None? ==> |Run(d, items).snapshots| == |items|
    decreases |items|
  {
    if items != [] {
      assert forall k :: 1 <= k < |items| ==> items[k] == items[1..][k - 1];
      if items[0].Event? {
        OneSnapshotPerChunk(Apply(d, items[0].event), items[1..]);
      }
    }
  }

  /** A payload that does not deserialise ends the stream with a provider error. */
  lemma MalformedAborts(d: Decoder, reason: string, raw: string, rest: seq<Incoming<GenerateResponse>>)
    ensures Run(d, [Malformed(reason, raw)] + rest) == StreamOutcome([], Some(ProviderError("JSON parse error: " + reason)))
  {
    assert ([Malformed(reason, raw)] + rest)[0] == Malformed(reason, raw);
  }

  // ----- Whole response -----

  /** The finished binary attachments of a function response. */
  function BlobParts(blobs: seq<Blob>): (r: seq<Part>)
    ensures |r| == |blobs|
    ensures forall k :: 0 <= k < |r| ==> r[k] == Media(Binary, blobs[k].data, blobs[k].mimeType, None, true)
  {
    seq(|blobs|, k requires 0 <= k < |blobs| => Media(Binary, blobs[k].data, blobs[k].mimeType, None, true))
  }

  /** The finished part a part of a whole response becomes; inline data is dropped. */
  function ResponsePart(wp: WirePart): (r: Option<Part>)
    ensures r.None? <==> wp.WireInline?
    ensures r.Some? ==> r.value.finished
    ensures wp.WireText? ==> IsTextual(r.value) && r.value.content == wp.text && (r.value.Reasoning? <==> wp.thought == Some(true))
  {
    match wp
    case WireText(t, thought) =>
      if thought.GetOr(false) then Some(Reasoning(t, None, None, true)) else Some(Part.Text(t, true))
    case WireCall(name, args, sig) => Some(FunctionCall(None, name, args, sig, true))
    case WireResponse(name, response, blobs) =>
      Some(FunctionResponse(None, name, response, BlobParts(blobs.GetOr([])), true))
    case WireInline(_) => None
  }

  predicate Kept(wp: WirePart) {
    !wp.WireInline?
  }

  function ResponseParts(wps: seq<WirePart>): (r: seq<Part>)
    ensures |r| == Count(wps, Kept)
    ensures AllFinished(r)
  {
    if wps == [] then []
    else (if Kept(wps[0]) then [ResponsePart(wps[0]).value] else []) + ResponseParts(wps[1..])
  }

  /** A whole response: one Assistant message of the first candidate's
      finished parts; the finish stays unfinished without a candidate or a
      reason; the usage is absent without metadata. */
  function ToResponse(r: GenerateResponse): (resp: Response)
    ensures |resp.data| == 1 && resp.data[0].Assistant? && AllFinished(resp.data[0].parts)
    ensures r.candidates.Some? && r.candidates.value != [] && r.candidates.value[0].content.Some? ==>
              resp.data[0].parts == ResponseParts(r.candidates.value[0].content.value.parts)
    ensures r.candidates.None? || r.candidates.value == [] || r.candidates.value[0].content.None? ==>
              resp.data[0].parts == []
    ensures resp.finish == Unfinished <==>
              r.candidates.None? || r.candidates.value == [] || r.candidates.value[0].finishReason.None?
    ensures resp.finish != Unfinished ==> resp.finish == FinishFor(r.candidates.value[0].finishReason.value)
    ensures resp.usage == (if r.usageMetadata.Some? then UsageOf(r.usageMetadata.value) else NoUsage)
  {
    var first := if r.candidates.Some? && r.candidates.value != [] then Some(r.candidates.value[0]) else None;
    var parts := if first.Some? && first.value.content.Some? then ResponseParts(first.value.content.value.parts) else [];
    var finish := if first.Some? && first.value.finishReason.Some? then FinishFor(first.value.finishReason.value) else Unfinished;
    Response([Message.Assistant(parts)], if r.usageMetadata.Some? then UsageOf(r.usageMetadata.value) else NoUsage, finish)
  }

  /** The stream and the whole response read usage and finish reasons alike. */
  lemma WholeAgreesWithStream(d: Decoder, r: GenerateResponse)
    ensures r.usageMetadata.Some? ==> ToResponse(r).usage == Apply(d, r).usage
    ensures ToResponse(r).finish != Unfinished ==> ToResponse(r).finish == Apply(d, r).finish
  {
    UsageIsOverwritten(d, r);
  }

  // ----- Request -----

  datatype FunctionDeclaration = FunctionDeclaration(name: string, description: string, parametersJsonSchema: Option<Json>)

  datatype ToolEntry = ToolEntry(functionDeclarations: seq<FunctionDeclaration>)

  datatype ThinkingConfig = ThinkingConfig(includeThoughts: Option<bool>, thinkingBudget: Option<nat>, thinkingLevel: Option<string>)

  /** The generation settings the request sets; sampling floats are left out. */
  datatype GenerationConfig = GenerationConfig(
    topK: Option<nat>,
    maxOutputTokens: Option<nat>,
    stopSequences: Option<seq<string>>,
    responseMimeType: Option<string>,
    thinkingConfig: Option<ThinkingConfig>)

  datatype Request = Request(contents: seq<Turn>, tools: seq<ToolEntry>, systemInstruction: Option<Turn>, generationConfig: GenerationConfig)

  /** The options the request reads; the thinking level is kept as its name. */
  datatype Options = Options(
    system: Option<string>,
    maxTokens: Option<nat>,
    reasoning: Option<bool>,
    topK: Option<nat>,
    stopSequences: Option<seq<string>>,
    responseMimeType: Option<string>,
    includeThoughts: Option<bool>,
    thinkingBudget: Option<nat>,
    thinkingLevel: Option<string>)

  /** The attachments of a function response: its Media parts, in order. */
  function MediaBlobs(ps: seq<Part>): (r: seq<Blob>)
    ensures |r| == Count(ps, (p: Part) => p.Media?)
  {
    if ps == [] then []
    else (if ps[0].Media? then [Blob(ps[0].mimeType, ps[0].data)] else []) + MediaBlobs(ps[1..])
  }

  /** The wire parts one part becomes: a media part is an anchor line
      followed by its inline data, every other part exactly one wire part. */
  function RequestPart(p: Part): (r: seq<WirePart>)
    ensures |r| == (if p.Media? then 2 else 1)
  {
    match p
    case Text(t, _) => [WireText(t, None)]
    case Reasoning(c, _, _, _) => [WireText(c, Some(true))]
    case Media(_, data, mime, _, _) => [WireText(AnchorMedia(p), None), WireInline(Blob(mime, data))]
    case FunctionCall(_, name, args, sig, _) => [WireCall(name, args, sig)]
    case FunctionResponse(_, name, response, inner, _) =>
      var blobs := MediaBlobs(inner);
      [WireResponse(name, response, if blobs == [] then None else Some(blobs))]
  }

  function RequestParts(ps: seq<Part>): (r: seq<WirePart>)
    ensures r == [] <==> ps == []
  {
    if ps == [] then [] else RequestPart(ps[0]) + RequestParts(ps[1..])
  }

  function RoleName(m: Message): (r: string)
    ensures r == (if m.Assistant? then "model" else "user")
  {
    match m
    case User(_) => "user"
    case Assistant(_) => "model"
  }

  /** The content entries: one per message that has a part, in order. */
  function Contents(ms: seq<Message>): (r: seq<Turn>)
    ensures |r| == Count(ms, (m: Message) => m.parts != [])
    ensures forall k :: 0 <= k < |r| ==> r[k].parts != [] && (r[k].role == "user" || r[k].role == "model")
  {
    if ms == [] then []
    else
      var parts := RequestParts(ms[0].parts);
      (if parts == [] then [] else [Turn(RoleName(ms[0]), parts)]) + Contents(ms[1..])
  }

  predicate HasParts(m: Message) { m.parts != [] }

  /** The k-th content entry is the k-th message that has a part: an assistant
      message goes out as `model`, a user message as `user`, each with its own
      parts' wire parts. */
  lemma {:induction false} ContentsFollowMessages(ms: seq<Message>)
    ensures var sent := Filter(ms, HasParts);
            |Contents(ms)| == |sent|
            && forall k :: 0 <= k < |sent| ==>
                 Contents(ms)[k].role == (if sent[k].Assistant? then "model" else "user")
                 && Contents(ms)[k].parts == RequestParts(sent[k].parts)
    decreases |ms|
  {
    if ms != [] {
      ContentsFollowMessages(ms[1..]);
      var sent, rest := Filter(ms, HasParts), Filter(ms[1..], HasParts);
      if HasParts(ms[0]) {
        assert sent == [ms[0]] + rest;
        assert Contents(ms) == [Turn(RoleName(ms[0]), RequestParts(ms[0].parts))] + Contents(ms[1..]);
        forall k | 1 <= k < |sent|
          ensures Contents(ms)[k] == Contents(ms[1..])[k - 1] && sent[k] == rest[k - 1]
        {
        }
      } else {
        assert sent == rest;
        assert Contents(ms) == Contents(ms[1..]);
      }
    }
  }

  predicate IsModelTurn(t: Turn) { t.role == "model" }
  predicate IsUserTurn(t: Turn) { t.role == "user" }
  predicate SentByAssistant(m: Message) { m.Assistant? && m.parts != [] }
  predicate SentByUser(m: Message) { m.User? && m.parts != [] }

  /** Every assistant message with a part becomes one `model` entry and every
      user message with a part one `user` entry. */
  lemma {:induction false} RolesFollowSenders(ms: seq<Message>)
    ensures Count(Contents(ms), IsModelTurn) == Count(ms, SentByAssistant)
    ensures Count(Contents(ms), IsUserTurn) == Count(ms, SentByUser)
    decreases |ms|
  {
    if ms != [] {
      RolesFollowSenders(ms[1..]);
      var parts := RequestParts(ms[0].parts);
      var head := if parts == [] then [] else [Turn(RoleName(ms[0]), parts)];
      assert Contents(ms) == head + Contents(ms[1..]);
      CountAppend(head, Contents(ms[1..]), IsModelTurn);
      CountAppend(head, Contents(ms[1..]), IsUserTurn);
    }
  }

  function Declaration(t: Tool): (r: FunctionDeclaration)
    ensures r.name == t.name && r.parametersJsonSchema == Some(Object(t.inputSchema))
    ensures r.description == (if t.description.Some? then t.description.value else "")
  {
    FunctionDeclaration(t.name, t.description.GetOr(""), Some(Object(t.inputSchema)))
  }

  /** No tool entry without tools; otherwise one entry declaring every tool, in order. */
  function ToolEntries(tools: seq<Tool>): (r: seq<ToolEntry>)
    ensures r == [] <==> tools == []
    ensures r != [] ==> |r| == 1 && |r[0].functionDeclarations| == |tools|
                        && forall k :: 0 <= k < |tools| ==> r[0].functionDeclarations[k] == Declaration(tools[k])
  {
    if tools == [] then []
    else [ToolEntry(seq(|tools|, k requires 0 <= k < |tools| => Declaration(tools[k])))]
  }

  /** Thinking is configured exactly when reasoning or thought inclusion is on,
      and then always asks for thoughts. */
  function ThinkingFor(o: Options): (r: Option<ThinkingConfig>)
    ensures r.Some? <==> o.reasoning == Some(true) || o.includeThoughts == Some(true)
    ensures r.Some? ==> r.value == ThinkingConfig(Some(true), o.thinkingBudget, o.thinkingLevel)
  {
    if o.reasoning.GetOr(false) || o.includeThoughts.GetOr(false) then Some(ThinkingConfig(Some(true), o.thinkingBudget, o.thinkingLevel))
    else None
  }

  function BuildRequest(ms: seq<Message>, o: Options, tools: seq<Tool>): (r: Request)
    ensures r.contents == Contents(ms) && r.tools == ToolEntries(tools)
    ensures r.systemInstruction == (if o.system.Some? then Some(Turn("user", [WireText(o.system.value, None)])) else None)
    ensures r.generationConfig.maxOutputTokens == o.maxTokens && r.generationConfig.topK == o.topK
    ensures r.generationConfig.thinkingConfig == ThinkingFor(o)
  {
    Request(Contents(ms), ToolEntries(tools),
            if o.system.Some? then Some(Turn("user", [WireText(o.system.value, None)])) else None,
            GenerationConfig(o.topK, o.maxTokens, o.stopSequences, o.responseMimeType, ThinkingFor(o)))
  }

  // ----- Properties of the request -----

  /** What a part comes back as when its wire form is read as a whole
      response: finished, without the ids and reasoning metadata the wire
      form does not carry, and with media replaced by its anchor line. */
  function Echo(p: Part): (r: Part)
    ensures r.finished
  {
    match p
    case Text(t, _) => Part.Text(t, true)
    case Reasoning(c, _, _, _) => Reasoning(c, None, None, true)
    case Media(_, _, _, _, _) => Part.Text(AnchorMedia(p), true)
    case FunctionCall(_, name, args, sig, _) => FunctionCall(None, name, args, sig, true)
    case FunctionResponse(_, name, response, inner, _) =>
      FunctionResponse(None, name, response, BlobParts(MediaBlobs(inner)), true)
  }

  function Echoes(ps: seq<Part>): (r: seq<Part>)
    ensures |r| == |ps| && AllFinished(r)
  {
    if ps == [] then [] else [Echo(ps[0])] + Echoes(ps[1..])
  }

  /** Reading back the wire parts of a message gives one finished part per
      part, in order. */
  lemma {:induction false} RequestThenResponse(ps: seq<Part>)
    ensures ResponseParts(RequestParts(ps)) == Echoes(ps)
    decreases |ps|
  {
    if ps != [] {
      RequestThenResponse(ps[1..]);
      ResponsePartsAppend(RequestPart(ps[0]), RequestParts(ps[1..]));
      EchoPart(ps[0]);
    }
  }

  /** A whole response whose one candidate carries the wire parts of a turn
      reads back as the echo of that turn, with the candidate's reason mapped
      and the metadata's usage. */
  lemma WholeResponseEchoes(ps: seq<Part>, reason: string, meta: UsageMetadata)
    ensures var resp := ToResponse(GenerateResponse(Some([Candidate(Some(Turn("model", RequestParts(ps))), Some(reason))]), Some(meta)));
            resp == Response([Message.Assistant(Echoes(ps))], UsageOf(meta), FinishFor(reason))
  {
    RequestThenResponse(ps);
  }

  lemma EchoPart(p: Part)
    ensures ResponseParts(RequestPart(p)) == [Echo(p)]
  {
    var here := RequestPart(p);
    if p.Media? {
      assert here[1..][1..] == [];
    } else {
      assert here[1..] == [];
      if p.FunctionResponse? {
        var blobs := MediaBlobs(p.parts);
        assert (if blobs == [] then None else Some(blobs)).GetOr([]) == blobs;
      }
    }
  }

  lemma {:induction false} ResponsePartsAppend(xs: seq<WirePart>, ys: seq<WirePart>)
    ensures ResponseParts(xs + ys) == ResponseParts(xs) + ResponseParts(ys)
    decreases |xs|
  {
    if xs == [] {
      assert xs + ys == ys;
    } else {
      assert (xs + ys)[0] == xs[0] && (xs + ys)[1..] == xs[1..] + ys;
      ResponsePartsAppend(xs[1..], ys);
    }
  }
}
