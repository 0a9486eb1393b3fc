/** The legacy Gemini mappings over the flat message shape: roles, request
    contents, finish reasons, usage, whole responses and the chunks emitted per
    stream event. */
module LegacyGemini {
  import opened Model
  import L = LegacyModel

  datatype GeminiRole = UserTurn | ModelTurn

  datatype CallData = CallData(name: string, args: Json)

  datatype ResponseData = ResponseData(name: string, response: Json)

  datatype GeminiPart =
    | TextPart(thought: Option<bool>, text: string)
    | CallPart(thoughtSignature: Option<string>, call: CallData)
    | ResponsePart(functionResponse: ResponseData)

  datatype Turn = Turn(role: GeminiRole, parts: seq<GeminiPart>)

  datatype GeminiFinish =
    | FinishStop
    | FinishMaxTokens
    | FinishSafety
    | FinishLanguage
    | FinishBlocklist
    | FinishProhibitedContent
    | FinishSpii
    | FinishImageSafety
    | FinishImageProhibitedContent
    | FinishImageRecitation
    | FinishMalformedFunctionCall
    | FinishUnexpectedToolCall
    | FinishTooManyToolCalls
      /** Any reason this decoder does not know. */
    | FinishOther

  datatype Candidate = Candidate(content: Turn, finishReason: Option<GeminiFinish>)

  datatype UsageMetadata = UsageMetadata(promptTokenCount: nat, candidatesTokenCount: Option<nat>, thoughtsTokenCount: Option<nat>)

  datatype GeminiResponse = GeminiResponse(candidates: L.NonEmpty<Candidate>, usageMetadata: Option<UsageMetadata>)

  datatype ThinkingConfig = ThinkingConfig(includeThoughts: Option<bool>, thinkingBudget: Option<nat>)

  datatype GenerationConfig = GenerationConfig(maxOutputTokens: Option<nat>, thinkingConfig: Option<ThinkingConfig>)

  datatype Request = Request(contents: seq<Turn>, generationConfig: Option<GenerationConfig>)

  // ----- Finish reasons, roles, usage -----

  predicate IsSafetyFamily(g: GeminiFinish) {
    g.FinishSafety? || g.FinishLanguage? || g.FinishBlocklist? || g.FinishProhibitedContent? || g.FinishSpii?
    || g.FinishImageSafety? || g.FinishImageProhibitedContent? || g.FinishImageRecitation?
  }

  predicate IsToolFamily(g: GeminiFinish) {
    g.FinishMalformedFunctionCall? || g.FinishUnexpectedToolCall? || g.FinishTooManyToolCalls?
  }

  function FinishFor(g: GeminiFinish): FinishReason {
    match g
    case FinishStop => Stop
    case FinishMaxTokens => OutputTokens
    case FinishMalformedFunctionCall => ToolCalls
    case FinishUnexpectedToolCall => ToolCalls
    case FinishTooManyToolCalls => ToolCalls
    case FinishOther => Stop
    case _ => ContentFilter
  }

  /** Each family of reasons maps to exactly one unified reason, and the
      unified reasons the provider has no reason for never appear. */
  lemma FinishFamilies(g: GeminiFinish)
    ensures FinishFor(g) == Stop <==> g.FinishStop? || g.FinishOther?
    ensures FinishFor(g) == OutputTokens <==> g.FinishMaxTokens?
    ensures FinishFor(g) == ContentFilter <==> IsSafetyFamily(g)
    ensures FinishFor(g) == ToolCalls <==> IsToolFamily(g)
    ensures !FinishFor(g).PromptTokens? && !FinishFor(g).Error? && !FinishFor(g).Unfinished?
  {
  }

  function RoleFor(r: Role): (g: GeminiRole)
    ensures g == UserTurn <==> r == Role.User
  {
    match r
    case User => UserTurn
    case Assistant => ModelTurn
  }

  /** Both counters present: the prompt count, and candidates plus thoughts
      with an absent count taken as zero. */
  function UsageOf(u: UsageMetadata): (r: Usage)
    ensures r.promptTokens == Some(u.promptTokenCount)
    ensures r.completionTokens.Some?
    ensures r.completionTokens.value == u.candidatesTokenCount.GetOr(0) + u.thoughtsTokenCount.GetOr(0)
  {
    Usage(Some(u.promptTokenCount), Some(u.candidatesTokenCount.GetOr(0) + u.thoughtsTokenCount.GetOr(0)))
  }

  // ----- Messages and parts -----

  /** The content entry a message becomes: its role, and exactly one part. */
  function TurnOf(m: L.Message): (t: Turn)
    ensures t.role == RoleFor(L.RoleOf(m)) && |t.parts| == 1
    ensures t.parts[0].TextPart? <==> m.Text? || m.Reasoning?
    ensures t.parts[0].TextPart? ==> (t.parts[0].thought == Some(true) <==> m.Reasoning?) && t.parts[0].text == m.content
  {
    var part :=
      match m
      case Text(_, content) => TextPart(None, content)
      case Reasoning(_, content, _, _) => TextPart(Some(true), content)
      case FunctionCall(name, args, sig) => CallPart(sig, CallData(name, args))
      case FunctionResponse(name, response) => ResponsePart(ResponseData(name, response));
    Turn(RoleFor(L.RoleOf(m)), [part])
  }

  /** The message a received part becomes: a thought is reasoning without
      signature or summary, other text is text, both from the assistant. */
  function MessageOf(p: GeminiPart): (m: L.Message)
    ensures p.TextPart? ==> (m.Reasoning? <==> p.thought == Some(true)) && (m.Text? <==> p.thought != Some(true))
    ensures p.TextPart? ==> L.RoleOf(m) == Role.Assistant && m.content == p.text
    ensures m.Reasoning? ==> m.signature.None? && m.summary.None?
    ensures p.CallPart? <==> m.FunctionCall?
    ensures p.ResponsePart? <==> m.FunctionResponse?
  {
    match p
    case TextPart(thought, text) =>
      if thought.GetOr(false) then L.Reasoning(Role.Assistant, text, None, None) else L.Text(Role.Assistant, text)
    case CallPart(sig, call) => L.FunctionCall(call.name, call.args, sig)
    case ResponsePart(r) => L.FunctionResponse(r.name, r.response)
  }

  /** A message the provider can say comes back unchanged from its own part:
      assistant text, assistant reasoning without signature or summary, calls
      (with their signature) and responses. */
  predicate Representable(m: L.Message) {
    match m
    case Text(role, _) => role == Role.Assistant
    case Reasoning(role, _, sig, summary) => role == Role.Assistant && sig.None? && summary.None?
    case _ => true
  }

  lemma SentPartComesBack(m: L.Message)
    ensures MessageOf(TurnOf(m).parts[0]) == m <==> Representable(m)
  {
  }

  // ----- Whole responses -----

  /** The parts of all candidates, in order. */
  function AllParts(cs: seq<Candidate>): seq<GeminiPart> {
    if cs == [] then [] else cs[0].content.parts + AllParts(cs[1..])
  }

  function TotalParts(cs: seq<Candidate>): nat {
    if cs == [] then 0 else |cs[0].content.parts| + TotalParts(cs[1..])
  }

  lemma {:induction false} AllPartsCount(cs: seq<Candidate>)
    ensures |AllParts(cs)| == TotalParts(cs)
  {
    if cs != [] {
      AllPartsCount(cs[1..]);
    }
  }

  function Messages(ps: seq<GeminiPart>): (r: seq<L.Message>)
    ensures |r| == |ps| && forall k :: 0 <= k < |ps| ==> r[k] == MessageOf(ps[k])
  {
    seq(|ps|, k requires 0 <= k < |ps| => MessageOf(ps[k]))
  }

  /** The finish reason of a response: the last candidate's, or `Stop`. */
  function FinishOf(r: GeminiResponse): (f: FinishReason)
    ensures r.candidates.Last().finishReason.None? ==> f == Stop
    ensures r.candidates.Last().finishReason.Some? ==> f == FinishFor(r.candidates.Last().finishReason.value)
  {
    FinishFor(r.candidates.Last().finishReason.GetOr(FinishStop))
  }

  /** A whole response: one message per part of every candidate, in order,
      the usage when reported, and the last candidate's finish reason. */
  function ToResponse(r: GeminiResponse): (out: L.Response)
    ensures out.data == Messages(AllParts(r.candidates.Items()))
    ensures out.usage.Some? <==> r.usageMetadata.Some?
    ensures out.usage.Some? ==> out.usage.value == UsageOf(r.usageMetadata.value)
    ensures out.finish == FinishOf(r)
  {
    L.Response(Messages(AllParts(r.candidates.Items())),
               if r.usageMetadata.Some? then Some(UsageOf(r.usageMetadata.value)) else None,
               FinishOf(r))
  }

  /** A single-candidate response's messages are its parts, in order. */
  lemma SingleCandidate(c: Candidate, u: Option<UsageMetadata>)
    ensures ToResponse(GeminiResponse(L.NonEmpty(c, []), u)).data == Messages(c.content.parts)
    ensures ToResponse(GeminiResponse(L.NonEmpty(c, []), u)).finish == FinishFor(c.finishReason.GetOr(FinishStop))
  {
    assert L.NonEmpty(c, []).Items() == [c];
    assert AllParts([c]) == c.content.parts + AllParts([]);
    assert c.content.parts + [] == c.content.parts;
  }

  // ----- Stream -----

  function DataChunks(ps: seq<GeminiPart>): (r: seq<Result<L.StreamChunk, ClientError>>)
    ensures |r| == |ps| && forall k :: 0 <= k < |ps| ==> r[k] == Ok(L.Data(MessageOf(ps[k])))
  {
    seq(|ps|, k requires 0 <= k < |ps| => Ok(L.Data(MessageOf(ps[k]))))
  }

  /** The chunks one stream event yields: a data chunk per part of every
      candidate, then the usage when reported, then the finish only when the
      last candidate has a reason; an event that failed is one error. */
  function EventChunks(e: Result<GeminiResponse, ClientError>): (r: seq<Result<L.StreamChunk, ClientError>>)
    ensures e.Err? ==> r == [Err(e.error)]
    ensures e.Ok? ==>
              var ps := AllParts(e.value.candidates.Items());
              var u := e.value.usageMetadata;
              var reason := e.value.candidates.Last().finishReason;
              && |r| == |ps| + (if u.Some? then 1 else 0) + (if reason.Some? then 1 else 0)
              && (forall k :: 0 <= k < |ps| ==> r[k] == Ok(L.Data(MessageOf(ps[k]))))
              && (u.Some? ==> r[|ps|] == Ok(L.UsageChunk(UsageOf(u.value))))
              && (reason.Some? ==> r[|r| - 1] == Ok(L.Finish(FinishFor(reason.value))))
              && (forall k :: 0 <= k < |r| ==> r[k].Ok?)
  {
    match e
    case Err(err) => [Err(err)]
    case Ok(resp) =>
      var u := resp.usageMetadata;
      var reason := resp.candidates.Last().finishReason;
      DataChunks(AllParts(resp.candidates.Items()))
      + (if u.Some? then [Ok(L.UsageChunk(UsageOf(u.value)))] else [])
      + (if reason.Some? then [Ok(L.Finish(FinishFor(reason.value)))] else [])
  }

  /** The stream: every event's chunks, in event order. */
  function StreamChunks(events: seq<Result<GeminiResponse, ClientError>>): seq<Result<L.StreamChunk, ClientError>> {
    if events == [] then [] else EventChunks(events[0]) + StreamChunks(events[1..])
  }

  /** An error does not end the stream: the events after it still yield
      their chunks, and each failed event yields exactly one error. */
  lemma {:induction false} StreamErrorsAreCounted(events: seq<Result<GeminiResponse, ClientError>>)
    ensures Count(StreamChunks(events), IsErr) == Count(events, IsFailedEvent)
  {
    if events != [] {
      StreamErrorsAreCounted(events[1..]);
      CountAppend(EventChunks(events[0]), StreamChunks(events[1..]), IsErr);
      if events[0].Ok? {
        NoErrors(EventChunks(events[0]));
      } else {
        var one: seq<Result<L.StreamChunk, ClientError>> := [Err(events[0].error)];
        assert one[1..] == [];
      }
    }
  }

  predicate IsErr(c: Result<L.StreamChunk, ClientError>) {
    c.Err?
  }

  predicate IsFailedEvent(e: Result<GeminiResponse, ClientError>) {
    e.Err?
  }

  lemma {:induction false} NoErrors(cs: seq<Result<L.StreamChunk, ClientError>>)
    requires forall k :: 0 <= k < |cs| ==> cs[k].Ok?
    ensures Count(cs, IsErr) == 0
  {
    if cs != [] {
      NoErrors(cs[1..]);
    }
  }

  // ----- Requests -----

  function Turns(ms: seq<L.Message>): (r: seq<Turn>)
    ensures |r| == |ms| && forall k :: 0 <= k < |ms| ==> r[k] == TurnOf(ms[k])
  {
    seq(|ms|, k requires 0 <= k < |ms| => TurnOf(ms[k]))
  }

  /** One content entry per message, in order, and a generation config that
      always carries a thinking config asking for thoughts as the reasoning
      option says, with no budget. */
  function BuildRequest(ms: seq<L.Message>, options: L.ModelOptions): (r: Request)
    ensures r.contents == Turns(ms)
    ensures |r.contents| == |ms|
    ensures forall k :: 0 <= k < |ms| ==> |r.contents[k].parts| == 1 && r.contents[k].role == RoleFor(L.RoleOf(ms[k]))
    ensures r.generationConfig.Some? && r.generationConfig.value.maxOutputTokens == options.maxTokens
    ensures r.generationConfig.value.thinkingConfig == Some(ThinkingConfig(options.reasoning, None))
  {
    Request(Turns(ms), Some(GenerationConfig(options.maxTokens, Some(ThinkingConfig(options.reasoning, None)))))
  }

  /** Every content entry of a request reads back as the message it was built
      from exactly when that message is representable. */
  lemma SentMessagesComeBack(ms: seq<L.Message>, options: L.ModelOptions)
    ensures var r := BuildRequest(ms, options);
            forall k :: 0 <= k < |ms| ==> (MessageOf(r.contents[k].parts[0]) == ms[k] <==> Representable(ms[k]))
  {
    forall k | 0 <= k < |ms|
      ensures MessageOf(BuildRequest(ms, options).contents[k].parts[0]) == ms[k] <==> Representable(ms[k])
    {
      SentPartComesBack(ms[k]);
    }
  }
}
