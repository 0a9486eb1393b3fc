/** The legacy OpenAI Responses mappings over the flat message shape: input
    items, output items, incompletion reasons, usage, whole responses, the
    chunks emitted per stream event and the request body. */
module LegacyOpenAi {
  import opened Model
  import L = LegacyModel

  /** The model asked for when the options name none. */
  const DefaultModel: string := "gpt-5"

  /** The separator placed between the text entries of one output item. */
  const Separator: string := "\n\n"

  datatype ItemRole = UserItem | AssistantItem

  datatype ContentType = InputText | OutputText | PlainText | SummaryText | ReasoningText

  datatype Content = Content(text: string, contentType: ContentType)

  datatype Item =
    | TextItem(content: seq<Content>, role: ItemRole)
    | ReasoningItem(summary: seq<Content>, content: seq<Content>)

  datatype IncompleteReason = MaxPromptTokens | MaxOutputTokens | FilteredContent | OtherReason

  datatype OpenAiUsage = OpenAiUsage(inputTokens: nat, outputTokens: nat)

  datatype OpenAiResponse = OpenAiResponse(output: seq<Item>, usage: Option<OpenAiUsage>, incompleteDetails: Option<IncompleteReason>)

  datatype StreamEvent =
    | OutputTextDelta(delta: string)
    | ReasoningTextDelta(delta: string)
    | Completed(response: OpenAiResponse)
    | Incomplete(response: OpenAiResponse)
      /** Any event type this decoder does not know. */
    | OtherEvent

  datatype Request = Request(model: string, input: seq<Item>, instructions: Option<string>, maxOutputTokens: Option<nat>, stream: Option<bool>)

  // ----- Finish reasons and usage -----

  function FinishFor(r: IncompleteReason): FinishReason {
    match r
    case MaxPromptTokens => PromptTokens
    case MaxOutputTokens => OutputTokens
    case FilteredContent => ContentFilter
    case OtherReason => Stop
  }

  /** Distinct incompletion reasons stay distinct, an unknown one reads as a
      normal stop, and tool calls or errors are never reported. */
  lemma FinishReasons(r: IncompleteReason)
    ensures FinishFor(r) == PromptTokens <==> r.MaxPromptTokens?
    ensures FinishFor(r) == OutputTokens <==> r.MaxOutputTokens?
    ensures FinishFor(r) == ContentFilter <==> r.FilteredContent?
    ensures FinishFor(r) == Stop <==> r.OtherReason?
    ensures !FinishFor(r).ToolCalls? && !FinishFor(r).Error? && !FinishFor(r).Unfinished?
  {
  }

  function UsageOf(u: OpenAiUsage): (r: Usage)
    ensures r.promptTokens == Some(u.inputTokens) && r.completionTokens == Some(u.outputTokens)
  {
    Usage(Some(u.inputTokens), Some(u.outputTokens))
  }

  // ----- Messages and items -----

  /** The input item a message becomes. User text is input text, assistant
      text is output text; reasoning carries its summary (empty when absent)
      and its content; calls and responses have no item of their own and
      become one empty assistant text. */
  function ItemFor(m: L.Message): (it: Item)
    ensures m.Text? ==> it == TextItem([Content(m.content, if m.role == Role.User then InputText else OutputText)],
                                       if m.role == Role.User then UserItem else AssistantItem)
    ensures m.Reasoning? ==> it == ReasoningItem([Content(m.summary.GetOr(""), SummaryText)], [Content(m.content, ReasoningText)])
    ensures m.FunctionCall? || m.FunctionResponse? ==> it == TextItem([Content("", PlainText)], AssistantItem)
  {
    match m
    case Text(role, content) =>
      if role == Role.User then TextItem([Content(content, InputText)], UserItem)
      else TextItem([Content(content, OutputText)], AssistantItem)
    case Reasoning(_, content, _, summary) =>
      ReasoningItem([Content(summary.GetOr(""), SummaryText)], [Content(content, ReasoningText)])
    case _ => TextItem([Content("", PlainText)], AssistantItem)
  }

  function Texts(cs: seq<Content>): (r: seq<string>)
    ensures |r| == |cs| && forall k :: 0 <= k < |cs| ==> r[k] == cs[k].text
  {
    seq(|cs|, k requires 0 <= k < |cs| => cs[k].text)
  }

  /** The message an output item becomes: its texts joined by a blank line;
      reasoning is the assistant's, has no signature, and has a summary only
      when the joined summary is not empty. */
  function MessageFor(it: Item): (m: L.Message)
    ensures it.TextItem? ==> m.Text? && m.content == Join(Texts(it.content), Separator)
    ensures it.TextItem? ==> (m.role == Role.User <==> it.role == UserItem)
    ensures it.ReasoningItem? ==> m.Reasoning? && m.role == Role.Assistant && m.signature.None?
    ensures it.ReasoningItem? ==> m.content == Join(Texts(it.content), Separator)
    ensures it.ReasoningItem? ==> (m.summary.None? <==> Join(Texts(it.summary), Separator) == "")
    ensures m.Reasoning? && m.summary.Some? ==> m.summary.value == Join(Texts(it.summary), Separator)
  {
    match it
    case TextItem(content, role) =>
      L.Text(if role == UserItem then Role.User else Role.Assistant, Join(Texts(content), Separator))
    case ReasoningItem(summary, content) =>
      var s := Join(Texts(summary), Separator);
      L.Reasoning(Role.Assistant, Join(Texts(content), Separator), None, if s == "" then None else Some(s))
  }

  /** Joining with a non-empty separator gives the empty string exactly when
      there is at most one entry and every entry is empty. */
  lemma {:induction false} JoinIsEmpty(xs: seq<string>, sep: string)
    requires sep != ""
    ensures Join(xs, sep) == "" <==> |xs| <= 1 && forall k :: 0 <= k < |xs| ==> xs[k] == ""
  {
    if |xs| > 1 {
      assert |Join(xs, sep)| >= |sep|;
    }
  }

  /** A reasoning item's summary is dropped exactly when every one of its
      at most one entries is empty. */
  lemma SummaryDropped(summary: seq<Content>, content: seq<Content>)
    ensures MessageFor(ReasoningItem(summary, content)).summary.None?
        <==> |summary| <= 1 && forall k :: 0 <= k < |summary| ==> summary[k].text == ""
  {
    JoinIsEmpty(Texts(summary), Separator);
  }

  /** Text goes out and comes back unchanged, whatever its role. */
  lemma TextComesBack(role: Role, content: string)
    ensures MessageFor(ItemFor(L.Text(role, content))) == L.Text(role, content)
  {
    var it := ItemFor(L.Text(role, content));
    assert Texts(it.content) == [content];
  }

  /** Reasoning comes back unchanged exactly when it is the assistant's, has
      no signature, and has no summary or a non-empty one. */
  lemma ReasoningComesBack(role: Role, content: string, signature: Option<string>, summary: Option<string>)
    ensures MessageFor(ItemFor(L.Reasoning(role, content, signature, summary))) == L.Reasoning(role, content, signature, summary)
        <==> role == Role.Assistant && signature.None? && summary != Some("")
  {
    var it := ItemFor(L.Reasoning(role, content, signature, summary));
    assert Texts(it.content) == [content];
    assert Texts(it.summary) == [summary.GetOr("")];
  }

  /** Calls and responses come back as one empty assistant text. */
  lemma CallsAreBlanked(m: L.Message)
    requires m.FunctionCall? || m.FunctionResponse?
    ensures MessageFor(ItemFor(m)) == L.Text(Role.Assistant, "")
  {
    assert Texts(ItemFor(m).content) == [""];
  }

  // ----- Whole responses -----

  function Messages(items: seq<Item>): (r: seq<L.Message>)
    ensures |r| == |items| && forall k :: 0 <= k < |items| ==> r[k] == MessageFor(items[k])
  {
    seq(|items|, k requires 0 <= k < |items| => MessageFor(items[k]))
  }

  /** A whole response: one message per output item, in order, the usage
      when reported, and the incompletion reason or else a normal stop. */
  function ToResponse(r: OpenAiResponse): (out: L.Response)
    ensures out.data == Messages(r.output)
    ensures out.usage.Some? <==> r.usage.Some?
    ensures out.usage.Some? ==> out.usage.value == UsageOf(r.usage.value)
    ensures r.incompleteDetails.None? ==> out.finish == Stop
    ensures r.incompleteDetails.Some? ==> out.finish == FinishFor(r.incompleteDetails.value)
  {
    L.Response(Messages(r.output),
               if r.usage.Some? then Some(UsageOf(r.usage.value)) else None,
               if r.incompleteDetails.Some? then FinishFor(r.incompleteDetails.value) else Stop)
  }

  // ----- Stream -----

  /** The chunks one stream event yields: a delta is one assistant message
      chunk; a completed or incomplete response is its usage when reported
      and then its finish reason; any other event yields nothing; a failed
      event is one error. */
  function EventChunks(e: Result<StreamEvent, ClientError>): (r: seq<Result<L.StreamChunk, ClientError>>)
    ensures e.Err? ==> r == [Err(e.error)]
    ensures e.Ok? && e.value.OutputTextDelta? ==> r == [Ok(L.Data(L.Text(Role.Assistant, e.value.delta)))]
    ensures e.Ok? && e.value.ReasoningTextDelta? ==> r == [Ok(L.Data(L.Reasoning(Role.Assistant, e.value.delta, None, None)))]
    ensures e.Ok? && (e.value.Completed? || e.value.Incomplete?) ==>
              var done := ToResponse(e.value.response);
              && |r| == (if done.usage.Some? then 2 else 1)
              && r[|r| - 1] == Ok(L.Finish(done.finish))
              && (done.usage.Some? ==> r[0] == Ok(L.UsageChunk(done.usage.value)))
    ensures e.Ok? && e.value.OtherEvent? ==> r == []
  {
    match e
    case Err(err) => [Err(err)]
    case Ok(event) =>
      match event
      case OutputTextDelta(delta) => [Ok(L.Data(L.Text(Role.Assistant, delta)))]
      case ReasoningTextDelta(delta) => [Ok(L.Data(L.Reasoning(Role.Assistant, delta, None, None)))]
      case Completed(response) => DoneChunks(ToResponse(response))
      case Incomplete(response) => DoneChunks(ToResponse(response))
      case OtherEvent => []
  }

  function DoneChunks(done: L.Response): seq<Result<L.StreamChunk, ClientError>> {
    (if done.usage.Some? then [Ok(L.UsageChunk(done.usage.value))] else []) + [Ok(L.Finish(done.finish))]
  }

  /** The stream: every event's chunks, in event order. */
  function StreamChunks(events: seq<Result<StreamEvent, ClientError>>): seq<Result<L.StreamChunk, ClientError>> {
    if events == [] then [] else EventChunks(events[0]) + StreamChunks(events[1..])
  }

  predicate IsFinish(c: Result<L.StreamChunk, ClientError>) {
    c.Ok? && c.value.Finish?
  }

  predicate IsTerminal(e: Result<StreamEvent, ClientError>) {
    e.Ok? && (e.value.Completed? || e.value.Incomplete?)
  }

  /** Exactly one finish chunk per completed or incomplete response event. */
  lemma {:induction false} OneFinishPerTerminalEvent(events: seq<Result<StreamEvent, ClientError>>)
    ensures Count(StreamChunks(events), IsFinish) == Count(events, IsTerminal)
  {
    if events != [] {
      OneFinishPerTerminalEvent(events[1..]);
      var here := EventChunks(events[0]);
      CountAppend(here, StreamChunks(events[1..]), IsFinish);
      assert Count(here, IsFinish) == (if IsTerminal(events[0]) then 1 else 0) by {
        if IsTerminal(events[0]) {
          if |here| == 2 {
            assert here[1..][1..] == [];
          } else {
            assert here[1..] == [];
          }
        } else if here != [] {
          assert here[1..] == [];
        }
      }
    }
  }

  // ----- Requests -----

  function Items(ms: seq<L.Message>): (r: seq<Item>)
    ensures |r| == |ms| && forall k :: 0 <= k < |ms| ==> r[k] == ItemFor(ms[k])
  {
    seq(|ms|, k requires 0 <= k < |ms| => ItemFor(ms[k]))
  }

  /** The request body: the named model or the default one, one input item
      per message in order, the instructions and output-token limit as given,
      and no stream flag. */
  function BuildRequest(ms: seq<L.Message>, options: L.ModelOptions): (r: Request)
    ensures options.model.Some? ==> r.model == options.model.value
    ensures options.model.None? ==> r.model == DefaultModel
    ensures r.input == Items(ms)
    ensures r.instructions == options.instructions && r.maxOutputTokens == options.maxTokens
    ensures r.stream.None?
  {
    Request(options.model.GetOr(DefaultModel), Items(ms), options.instructions, options.maxTokens, None)
  }

  /** The streaming request body: the same body asking for a stream. */
  function BuildStreamRequest(ms: seq<L.Message>, options: L.ModelOptions): (r: Request)
    ensures r.stream == Some(true)
    ensures r.(stream := None) == BuildRequest(ms, options)
  {
    BuildRequest(ms, options).(stream := Some(true))
  }
}
