/** The provider-agnostic conversation model: parts, messages, usage counters,
    finish reasons and the response that the stream decoders accumulate into. */
module Model {

  datatype Option<T> = None | Some(value: T) {
    function GetOr(default: T): T {
      match this
      case Some(v) => v
      case None => default
    }
  }

  datatype Result<T, E> = Ok(value: T) | Err(error: E)

  /** A JSON value. Numbers are integers: floating point is not modelled. Object
      members keep their order; only equality with the empty object matters. */
  datatype Json =
    | Null
    | Bool(b: bool)
    | Number(n: int)
    | String(s: string)
    | Array(items: seq<Json>)
    | Object(members: seq<(string, Json)>)

  const EmptyObject: Json := Object([])

  /** A result's items behind a prefix; an error passes through unchanged. */
  function Extend<T, E>(prefix: seq<T>, r: Result<seq<T>, E>): Result<seq<T>, E> {
    match r
    case Ok(xs) => Ok(prefix + xs)
    case Err(e) => Err(e)
  }

  lemma ExtendAssoc<T, E>(a: seq<T>, b: seq<T>, r: Result<seq<T>, E>)
    ensures Extend(a, Extend(b, r)) == Extend(a + b, r)
  {
    if r.Ok? {
      assert a + (b + r.value) == (a + b) + r.value;
    }
  }

  datatype Role = User | Assistant

  datatype MediaType = Image | Document | Text | Binary

  /** One typed unit of a message. Every variant carries `finished`. */
  datatype Part =
    | Text(content: string, finished: bool)
    | Reasoning(content: string, summary: Option<string>, signature: Option<string>, finished: bool)
    | FunctionCall(id: Option<string>, name: string, arguments: Json, signature: Option<string>, finished: bool)
    | FunctionResponse(id: Option<string>, name: string, response: Json, parts: seq<Part>, finished: bool)
    | Media(mediaType: MediaType, data: string, mimeType: string, uri: Option<string>, finished: bool)

  datatype Message = User(parts: seq<Part>) | Assistant(parts: seq<Part>)

  datatype FinishReason =
    | Stop
    | PromptTokens
    | OutputTokens
    | ToolCalls
    | ContentFilter
    | Error
      /** The non-final default of a response still being decoded. */
    | Unfinished

  datatype Usage = Usage(promptTokens: Option<nat>, completionTokens: Option<nat>)

  const NoUsage: Usage := Usage(None, None)

  datatype Response = Response(data: seq<Message>, usage: Usage, finish: FinishReason)

  /** The response a streaming decoder has built so far: one Assistant
      message holding its parts, with its usage and finish. */
  function Snapshot(parts: seq<Part>, usage: Usage, finish: FinishReason): (r: Response)
    ensures |r.data| == 1 && r.data[0].Assistant? && r.data[0].parts == parts
    ensures r.usage == usage && r.finish == finish
  {
    Response([Message.Assistant(parts)], usage, finish)
  }

  /** A tool definition as a tool server describes it; the input schema is a JSON object's members. */
  datatype Tool = Tool(name: string, description: Option<string>, inputSchema: seq<(string, Json)>)

  datatype ClientError =
    | Http(detail: string)
    | Parse(detail: string)
    | ProviderError(message: string)
    | StreamCancelled
    | Config(message: string)

  /** One item a stream decoder reads: a deserialised provider event, a payload
      that did not deserialise, or an error from the line framer below it. */
  datatype Incoming<E> = Event(event: E) | Malformed(reason: string, raw: string) | Failed(error: ClientError)

  /** What a decoder stream produces: the snapshots it yields, in order, and the
      error that ended it, if any. */
  datatype StreamOutcome = StreamOutcome(snapshots: seq<Response>, error: Option<ClientError>)

  function Prepend(snaps: seq<Response>, o: StreamOutcome): StreamOutcome {
    StreamOutcome(snaps + o.snapshots, o.error)
  }

  lemma PrependAssoc(a: seq<Response>, b: seq<Response>, o: StreamOutcome)
    ensures Prepend(a, Prepend(b, o)) == Prepend(a + b, o)
  {
    assert a + (b + o.snapshots) == (a + b) + o.snapshots;
  }

  // ----- Message accessors -----

  function RoleOf(m: Message): (r: Role)
    ensures r == Role.User <==> m.User?
  {
    match m
    case User(_) => Role.User
    case Assistant(_) => Role.Assistant
  }

  /** The message with its parts replaced and its role kept: the write-back of
      a change made through the mutable parts accessor. */
  function WithParts(m: Message, ps: seq<Part>): (r: Message)
    ensures RoleOf(r) == RoleOf(m) && r.parts == ps
  {
    match m
    case User(_) => Message.User(ps)
    case Assistant(_) => Message.Assistant(ps)
  }

  lemma WithPartsOwnParts(m: Message)
    ensures WithParts(m, m.parts) == m
  {
  }

  function MessageOf(role: Role, ps: seq<Part>): (m: Message)
    ensures RoleOf(m) == role && m.parts == ps
  {
    match role
    case User => Message.User(ps)
    case Assistant => Message.Assistant(ps)
  }

  predicate IsTextual(p: Part) {
    p.Text? || p.Reasoning?
  }

  /** The texts of the Text and Reasoning parts, in order. */
  function TextualContents(ps: seq<Part>): (r: seq<string>)
    ensures |r| <= |ps|
    ensures |r| == 0 <==> forall i :: 0 <= i < |ps| ==> !IsTextual(ps[i])
  {
    if ps == [] then []
    else
      var rest := TextualContents(ps[1..]);
      assert forall i :: 1 <= i < |ps| ==> ps[i] == ps[1..][i - 1];
      if IsTextual(ps[0]) then [ps[0].content] + rest else rest
  }

  /** The strings joined with `sep` between neighbours. */
  function Join(xs: seq<string>, sep: string): string {
    if xs == [] then ""
    else if |xs| == 1 then xs[0]
    else xs[0] + sep + Join(xs[1..], sep)
  }

  lemma {:induction false} JoinSnoc(xs: seq<string>, y: string, sep: string)
    requires xs != []
    ensures Join(xs + [y], sep) == Join(xs, sep) + sep + y
  {
    if |xs| == 1 {
      assert xs + [y] == [xs[0], y];
      assert [xs[0], y][1..] == [y];
    } else {
      assert (xs + [y])[1..] == xs[1..] + [y];
      JoinSnoc(xs[1..], y, sep);
    }
  }

  /** The text content of a message: absent when it has no Text or Reasoning
      part, otherwise those parts' texts joined by newlines. */
  function Content(m: Message): (r: Option<string>)
    ensures r.None? <==> forall i :: 0 <= i < |m.parts| ==> !IsTextual(m.parts[i])
    ensures r.Some? ==> r.value == Join(TextualContents(m.parts), "\n")
  {
    var texts := TextualContents(m.parts);
    if texts == [] then None else Some(Join(texts, "\n"))
  }

  lemma {:induction false} TextualContentsAppend(ps: seq<Part>, qs: seq<Part>)
    ensures TextualContents(ps + qs) == TextualContents(ps) + TextualContents(qs)
  {
    if ps == [] {
      assert ps + qs == qs;
    } else {
      assert (ps + qs)[0] == ps[0];
      assert (ps + qs)[1..] == ps[1..] + qs;
      TextualContentsAppend(ps[1..], qs);
    }
  }

  /** Appending a Text or Reasoning part extends the content by one line. */
  lemma ContentAppendTextual(m: Message, p: Part)
    requires IsTextual(p)
    ensures Content(WithParts(m, m.parts + [p])) ==
            match Content(m)
            case None => Some(p.content)
            case Some(c) => Some(c + "\n" + p.content)
  {
    TextualContentsAppend(m.parts, [p]);
    assert TextualContents([p]) == [p.content] by {
      assert [p][1..] == [];
    }
    var texts := TextualContents(m.parts);
    if texts != [] {
      JoinSnoc(texts, p.content, "\n");
    }
  }

  /** Parts other than Text and Reasoning do not contribute to the content. */
  lemma ContentIgnoresOthers(m: Message, p: Part)
    requires !IsTextual(p)
    ensures Content(WithParts(m, m.parts + [p])) == Content(m)
  {
    TextualContentsAppend(m.parts, [p]);
    assert TextualContents([p]) == [] by {
      assert [p][1..] == [];
    }
    assert TextualContents(m.parts) + [] == TextualContents(m.parts);
  }

  /** The anchor line placed before a media attachment in a request; the
      caller guarantees that the part is a Media part. */
  function AnchorMedia(p: Part): (r: string)
    requires p.Media?
    ensures var u := p.uri.GetOr("unknown");
            && |r| == 12 + |p.mimeType| + |u|
            && r[..6] == "File (" && r[6..6 + |p.mimeType|] == p.mimeType
            && r[6 + |p.mimeType|..11 + |p.mimeType|] == ") at "
            && r[11 + |p.mimeType|..|r| - 1] == u && r[|r| - 1] == ':'
  {
    "File (" + p.mimeType + ") at " + p.uri.GetOr("unknown") + ":"
  }

  // ----- Usage -----

  /** One counter of `a + b`: an absent counter is the identity. */
  function AddCount(a: Option<nat>, b: Option<nat>): (r: Option<nat>)
    ensures a.None? ==> r == b
    ensures b.None? ==> r == a
    ensures a.Some? && b.Some? ==> r == Some(a.value + b.value)
  {
    match a
    case Some(v) => Some(v + b.GetOr(0))
    case None => b
  }

  function Add(a: Usage, b: Usage): (r: Usage)
    ensures r.promptTokens == AddCount(a.promptTokens, b.promptTokens)
    ensures r.completionTokens == AddCount(a.completionTokens, b.completionTokens)
  {
    Usage(AddCount(a.promptTokens, b.promptTokens), AddCount(a.completionTokens, b.completionTokens))
  }

  lemma AddIdentity(u: Usage)
    ensures Add(NoUsage, u) == u && Add(u, NoUsage) == u
  {
  }

  lemma AddCommutative(a: Usage, b: Usage)
    ensures Add(a, b) == Add(b, a)
  {
  }

  lemma AddAssociative(a: Usage, b: Usage, c: Usage)
    ensures Add(Add(a, b), c) == Add(a, Add(b, c))
  {
  }

  /** Adding never loses a present counter and never lowers it. */
  lemma AddMonotone(a: Usage, b: Usage)
    ensures a.promptTokens.Some? ==> Add(a, b).promptTokens.Some? && Add(a, b).promptTokens.value >= a.promptTokens.value
    ensures a.completionTokens.Some? ==> Add(a, b).completionTokens.Some? && Add(a, b).completionTokens.value >= a.completionTokens.value
  {
  }

  // ----- Helpers shared by the decoders -----

  function MarkFinished(p: Part): (r: Part)
    ensures r.finished
  {
    p.(finished := true)
  }

  /** Every part of the response closed, as a finish signal does. */
  function FinishAll(ps: seq<Part>): (r: seq<Part>)
    ensures |r| == |ps|
    ensures forall i :: 0 <= i < |r| ==> r[i] == ps[i].(finished := true)
  {
    seq(|ps|, i requires 0 <= i < |ps| => ps[i].(finished := true))
  }

  predicate AllFinished(ps: seq<Part>) {
    forall i :: 0 <= i < |ps| ==> ps[i].finished
  }

  function Count<T>(xs: seq<T>, p: T -> bool): nat {
    if xs == [] then 0 else (if p(xs[0]) then 1 else 0) + Count(xs[1..], p)
  }

  /** The items satisfying `p`, in their order. */
  function Filter<T>(xs: seq<T>, p: T -> bool): (r: seq<T>)
    ensures |r| == Count(xs, p)
    ensures forall k :: 0 <= k < |r| ==> p(r[k])
  {
    if xs == [] then [] else (if p(xs[0]) then [xs[0]] else []) + Filter(xs[1..], p)
  }

  lemma {:induction false} CountAppend<T>(xs: seq<T>, ys: seq<T>, f: T -> bool)
    ensures Count(xs + ys, f) == Count(xs, f) + Count(ys, f)
  {
    if xs != [] {
      assert (xs + ys)[1..] == xs[1..] + ys;
      CountAppend(xs[1..], ys, f);
    } else {
      assert xs + ys == ys;
    }
  }
}
