/** The older flat message shape the legacy provider layer is written against:
    one message per unit, carrying its own role, a stream of chunks, and a
    response whose usage is optional. */
module LegacyModel {
  import opened Model

  datatype Message =
    | Text(role: Role, content: string)
    | Reasoning(role: Role, content: string, signature: Option<string>, summary: Option<string>)
    | FunctionCall(name: string, arguments: Json, signature: Option<string>)
    | FunctionResponse(name: string, response: Json)

  /** The role of a message. Text and reasoning carry their own; the role
      accessor is not defined for calls and responses in the flat shape, and
      is taken here as the assistant for a call and the user for a response. */
  function RoleOf(m: Message): (r: Role)
    ensures m.Text? || m.Reasoning? ==> r == m.role
    ensures m.FunctionCall? ==> r == Role.Assistant
    ensures m.FunctionResponse? ==> r == Role.User
  {
    match m
    case Text(role, _) => role
    case Reasoning(role, _, _, _) => role
    case FunctionCall(_, _, _) => Role.Assistant
    case FunctionResponse(_, _) => Role.User
  }

  /** One item of a decoded stream. */
  datatype StreamChunk = Data(message: Message) | UsageChunk(usage: Usage) | Finish(reason: FinishReason)

  datatype Response = Response(data: seq<Message>, usage: Option<Usage>, finish: FinishReason)

  /** A sequence with at least one element. */
  datatype NonEmpty<T> = NonEmpty(head: T, tail: seq<T>) {
    function Items(): (r: seq<T>)
      ensures |r| == |tail| + 1 && r[0] == head && r[1..] == tail
    {
      [head] + tail
    }

    function Last(): (r: T)
      ensures r == Items()[|Items()| - 1]
    {
      if tail == [] then head else tail[|tail| - 1]
    }
  }

  /** The options the legacy request builders read; the floating-point
      sampling options are not modelled. */
  datatype ModelOptions = ModelOptions(model: Option<string>, instructions: Option<string>, reasoning: Option<bool>, maxTokens: Option<nat>)
}
