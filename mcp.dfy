/** Tool servers speaking the Model Context Protocol: shaping a tool result into
    a function response, classifying resources, the id checks of one server,
    routing across several servers, and attaching resources to messages. */
module Mcp {
  import opened Model

  // ----- Errors and served items -----

  datatype McpError =
    | Mcp(message: string)
    | ToolNotFound(name: string)
    | PromptNotFound(name: string)
    | ResourceNotFound(uri: string)
    | ServerNotFound(id: string)
    | ServerIdMismatch

  /** The text an error displays as. */
  function Describe(e: McpError): string {
    match e
    case Mcp(m) => "MCP error: " + m
    case ToolNotFound(n) => "Tool not found: " + n
    case PromptNotFound(n) => "Prompt not found: " + n
    case ResourceNotFound(u) => "Resource not found: " + u
    case ServerNotFound(id) => "Server not found: " + id
    case ServerIdMismatch => "Server ID mismatch"
  }

  /** An item tagged with the id of the server that listed it. */
  datatype Served<T> = Served(value: T, serverId: string)

  /** A prompt as listed; only its name is read. */
  datatype Prompt = Prompt(name: string)

  /** A resource as listed; only its uri is read. */
  datatype Resource = Resource(uri: string, name: string)

  datatype ResourceContents =
    | TextResource(uri: string, mimeType: Option<string>, text: string)
    | BlobResource(uri: string, mimeType: Option<string>, blob: string)

  /** One item of a tool result's content; audio and resource links are `OtherContent`. */
  datatype ToolContent =
    | TextContent(text: string)
    | ImageContent(data: string, mimeType: string)
    | EmbeddedResource(resource: ResourceContents)
    | OtherContent

  datatype CallToolResult = CallToolResult(content: seq<ToolContent>, structuredContent: Option<Json>)

  /** One prompt message's content; resource links are `PromptLink`. */
  datatype PromptContent =
    | PromptText(text: string)
    | PromptImage(data: string, mimeType: string)
    | PromptResource(resource: ResourceContents)
    | PromptLink

  datatype PromptMessage = PromptMessage(role: Role, content: PromptContent)

  datatype PromptResult = PromptResult(messages: seq<PromptMessage>)

  datatype ReadResult = ReadResult(contents: seq<ResourceContents>)

  /** JSON object members, as tool and prompt arguments are passed. */
  type Arguments = seq<(string, Json)>

  // ----- Resources -----

  predicate StartsWith(s: string, prefix: string) {
    |s| >= |prefix| && s[..|prefix|] == prefix
  }

  /** The finished Media part a resource becomes: text resources are text
      media, blobs are classified by MIME type. */
  function ResourceToPart(rc: ResourceContents): (p: Part)
    ensures p.Media? && p.finished && p.uri == Some(rc.uri)
  {
    match rc
    case TextResource(uri, mime, text) =>
      Media(MediaType.Text, text, mime.GetOr("text/plain"), Some(uri), true)
    case BlobResource(uri, mime, blob) =>
      var m := mime.GetOr("application/octet-stream");
      var kind := if StartsWith(m, "image/") then Image else if m == "application/pdf" then Document else Binary;
      Media(kind, blob, m, Some(uri), true)
  }

  /** Text resources keep their text under `text/plain` unless typed; blobs
      are images exactly under an `image/` type, documents exactly under
      `application/pdf`, and binary otherwise, typed
      `application/octet-stream` unless given. */
  lemma ResourceClassification(rc: ResourceContents)
    ensures var p := ResourceToPart(rc);
            && (rc.TextResource? ==>
                  p.mediaType == MediaType.Text && p.data == rc.text
                  && p.mimeType == (if rc.mimeType.Some? then rc.mimeType.value else "text/plain"))
            && (rc.BlobResource? ==>
                  && p.data == rc.blob
                  && p.mimeType == (if rc.mimeType.Some? then rc.mimeType.value else "application/octet-stream")
                  && (p.mediaType == Image <==> StartsWith(p.mimeType, "image/"))
                  && (p.mediaType == Document <==> p.mimeType == "application/pdf")
                  && (p.mediaType == Binary <==> !StartsWith(p.mimeType, "image/") && p.mimeType != "application/pdf"))
  {
    assert !StartsWith("application/pdf", "image/") by {
      assert "application/pdf"[0] != "image/"[0];
    }
  }

  lemma ResourceExamples()
    ensures ResourceToPart(BlobResource("u", Some("image/png"), "b")).mediaType == Image
    ensures ResourceToPart(BlobResource("u", Some("application/pdf"), "b")).mediaType == Document
    ensures ResourceToPart(BlobResource("u", None, "b")) == Media(Binary, "b", "application/octet-stream", Some("u"), true)
    ensures ResourceToPart(TextResource("u", None, "t")) == Media(MediaType.Text, "t", "text/plain", Some("u"), true)
  {
    assert StartsWith("image/png", "image/") by {
      assert "image/png"[..6] == "image/";
    }
    assert !StartsWith("application/pdf", "image/") by {
      assert "application/pdf"[0] != "image/"[0];
    }
    assert !StartsWith("application/octet-stream", "image/") by {
      assert "application/octet-stream"[0] != "image/"[0];
    }
  }

  // ----- Shaping a tool result -----

  predicate Parses(c: ToolContent, parse: string -> Option<Json>) {
    c.TextContent? && parse(c.text).Some?
  }

  /** The value of the last text item that parses as JSON. */
  function LastParsed(cs: seq<ToolContent>, parse: string -> Option<Json>): Option<Json> {
    if cs == [] then None
    else if Parses(cs[|cs| - 1], parse) then parse(cs[|cs| - 1].text)
    else LastParsed(cs[..|cs| - 1], parse)
  }

  /** The texts that do not parse as JSON, in order. */
  function RawTexts(cs: seq<ToolContent>, parse: string -> Option<Json>): seq<string> {
    if cs == [] then []
    else
      var c := cs[|cs| - 1];
      RawTexts(cs[..|cs| - 1], parse) + (if c.TextContent? && !Parses(c, parse) then [c.text] else [])
  }

  /** The attachments: a Media part per image or embedded resource, in order. */
  function Attachments(cs: seq<ToolContent>): seq<Part> {
    if cs == [] then []
    else
      var c := cs[|cs| - 1];
      Attachments(cs[..|cs| - 1])
      + (match c
         case ImageContent(data, mime) => [Media(Image, data, mime, None, true)]
         case EmbeddedResource(rc) => [ResourceToPart(rc)]
         case _ => [])
  }

  function StringArray(ts: seq<string>): (r: seq<Json>)
    ensures |r| == |ts| && forall k :: 0 <= k < |ts| ==> r[k] == Json.String(ts[k])
  {
    seq(|ts|, k requires 0 <= k < |ts| => Json.String(ts[k]))
  }

  /** The response value: the structured content, else the last text that
      parses, else the unparsed texts under "response", else the empty object. */
  function ResponseValue(result: CallToolResult, parse: string -> Option<Json>): Json {
    if result.structuredContent.Some? then result.structuredContent.value
    else if LastParsed(result.content, parse).Some? then LastParsed(result.content, parse).value
    else if RawTexts(result.content, parse) != [] then Object([("response", Array(StringArray(RawTexts(result.content, parse))))])
    else EmptyObject
  }

  /** The function response a tool result becomes. */
  function ShapeResult(name: string, result: CallToolResult, parse: string -> Option<Json>): (p: Part)
    ensures p.FunctionResponse? && p.id.None? && p.name == name && p.finished
  {
    FunctionResponse(None, name, ResponseValue(result, parse), Attachments(result.content), true)
  }

  /** The loop over a tool result's content, keeping the structured value,
      the attachments, the last parsed text and the unparsed texts. */
  method FoldResult(name: string, result: CallToolResult, parse: string -> Option<Json>) returns (p: Part)
    ensures p == ShapeResult(name, result, parse)
  {
    var structured := EmptyObject;
    var parts: seq<Part> := [];
    var parsedText: Option<Json> := None;
    var rawText: seq<string> := [];
    var cs := result.content;
    var i := 0;
    while i < |cs|
      invariant 0 <= i <= |cs|
      invariant parts == Attachments(cs[..i])
      invariant parsedText == LastParsed(cs[..i], parse)
      invariant rawText == RawTexts(cs[..i], parse)
    {
      assert cs[..i + 1][..i] == cs[..i];
      match cs[i] {
        case TextContent(t) =>
          var parsed := parse(t);
          if parsed.Some? {
            parsedText := parsed;
          } else {
            rawText := rawText + [t];
          }
        case ImageContent(data, mime) =>
          parts := parts + [Media(Image, data, mime, None, true)];
        case EmbeddedResource(rc) =>
          parts := parts + [ResourceToPart(rc)];
        case OtherContent =>
          assert parts + [] == parts;
          assert rawText + [] == rawText;
      }
      i := i + 1;
    }
    assert cs[..i] == cs;
    if result.structuredContent.Some? {
      structured := result.structuredContent.value;
    } else if parsedText.Some? {
      structured := parsedText.value;
    } else if |rawText| > 0 {
      structured := Object([("response", Array(StringArray(rawText)))]);
    }
    p := FunctionResponse(None, name, structured, parts, true);
  }

  /** The last parsed text is present exactly when some text parses, and it
      is the value of a text after which no text parses. */
  lemma {:induction false} LastParsedIsLast(cs: seq<ToolContent>, parse: string -> Option<Json>)
    ensures LastParsed(cs, parse).Some? <==> exists k :: 0 <= k < |cs| && Parses(cs[k], parse)
    ensures LastParsed(cs, parse).Some? ==>
              exists k :: 0 <= k < |cs| && Parses(cs[k], parse) && LastParsed(cs, parse) == parse(cs[k].text)
                          && forall j :: k < j < |cs| ==> !Parses(cs[j], parse)
    decreases |cs|
  {
    if cs != [] {
      var init := cs[..|cs| - 1];
      assert forall j :: 0 <= j < |init| ==> init[j] == cs[j];
      LastParsedIsLast(init, parse);
      if !Parses(cs[|cs| - 1], parse) && LastParsed(init, parse).Some? {
        var k :| 0 <= k < |init| && Parses(init[k], parse) && LastParsed(init, parse) == parse(init[k].text)
                  && forall j :: k < j < |init| ==> !Parses(init[j], parse);
        assert Parses(cs[k], parse);
      }
    }
  }

  /** With no structured content and no text that parses, the response holds
      every text, in order, under "response" (or is the empty object when
      there is none). */
  lemma {:induction false} UnparsedTextsAreKept(cs: seq<ToolContent>, parse: string -> Option<Json>)
    requires forall k :: 0 <= k < |cs| ==> !Parses(cs[k], parse)
    ensures RawTexts(cs, parse) == Texts(cs)
    decreases |cs|
  {
    if cs != [] {
      var init := cs[..|cs| - 1];
      assert forall j :: 0 <= j < |init| ==> init[j] == cs[j];
      UnparsedTextsAreKept(init, parse);
    }
  }

  /** The texts of a tool result, in order. */
  function Texts(cs: seq<ToolContent>): seq<string> {
    if cs == [] then []
    else Texts(cs[..|cs| - 1]) + (if cs[|cs| - 1].TextContent? then [cs[|cs| - 1].text] else [])
  }

  /** The response-value precedence: structured content, then the last text
      that parses, then the unparsed texts, then the empty object. */
  lemma ResponsePrecedence(result: CallToolResult, parse: string -> Option<Json>)
    ensures result.structuredContent.Some? ==> ResponseValue(result, parse) == result.structuredContent.value
    ensures result.structuredContent.None? && (exists k :: 0 <= k < |result.content| && Parses(result.content[k], parse)) ==>
              exists k :: 0 <= k < |result.content| && Parses(result.content[k], parse)
                          && ResponseValue(result, parse) == parse(result.content[k].text).value
                          && forall j :: k < j < |result.content| ==> !Parses(result.content[j], parse)
    ensures result.structuredContent.None? && (forall k :: 0 <= k < |result.content| ==> !Parses(result.content[k], parse)) ==>
              ResponseValue(result, parse) ==
                (if Texts(result.content) == [] then EmptyObject
                 else Object([("response", Array(StringArray(Texts(result.content))))]))
  {
    LastParsedIsLast(result.content, parse);
    if forall k :: 0 <= k < |result.content| ==> !Parses(result.content[k], parse) {
      UnparsedTextsAreKept(result.content, parse);
    }
  }

  predicate IsAttachment(c: ToolContent) {
    c.ImageContent? || c.EmbeddedResource?
  }

  /** One finished Media part per image or embedded resource, in order: the
      attachment of content `i` sits after those of the content before it,
      an image as Image media without uri, a resource as its resource part. */
  lemma {:induction false} AttachmentsAreMedia(cs: seq<ToolContent>)
    ensures |Attachments(cs)| == CountBack(cs)
    ensures forall k :: 0 <= k < |Attachments(cs)| ==> Attachments(cs)[k].Media? && Attachments(cs)[k].finished
    ensures forall i :: 0 <= i < |cs| && cs[i].ImageContent? ==>
              CountBack(cs[..i]) < |Attachments(cs)|
              && Attachments(cs)[CountBack(cs[..i])] == Media(Image, cs[i].data, cs[i].mimeType, None, true)
    ensures forall i :: 0 <= i < |cs| && cs[i].EmbeddedResource? ==>
              CountBack(cs[..i]) < |Attachments(cs)|
              && Attachments(cs)[CountBack(cs[..i])] == ResourceToPart(cs[i].resource)
    decreases |cs|
  {
    if cs != [] {
      var init := cs[..|cs| - 1];
      AttachmentsAreMedia(init);
      assert cs[..|cs| - 1] == init;
      forall i | 0 <= i < |cs| - 1
        ensures cs[..i] == init[..i] && cs[i] == init[i]
      {
      }
    }
  }

  /** Content that is neither an image nor an embedded resource is dropped:
      removing it leaves the attachments unchanged. */
  lemma {:induction false} OtherContentIsDropped(cs: seq<ToolContent>, k: nat)
    requires k < |cs| && !IsAttachment(cs[k])
    ensures Attachments(cs) == Attachments(RemoveAt(cs, k))
    decreases |cs|
  {
    var init := cs[..|cs| - 1];
    if k == |cs| - 1 {
      assert RemoveAt(cs, k) == init;
    } else {
      OtherContentIsDropped(init, k);
      assert RemoveAt(cs, k)[..|cs| - 2] == RemoveAt(init, k);
      assert RemoveAt(cs, k)[|cs| - 2] == cs[|cs| - 1];
    }
  }

  function RemoveAt<T>(xs: seq<T>, k: nat): seq<T>
    requires k < |xs|
  {
    xs[..k] + xs[k + 1..]
  }

  /** The number of attachments, counted from the back as they are collected. */
  function CountBack(cs: seq<ToolContent>): nat {
    if cs == [] then 0 else CountBack(cs[..|cs| - 1]) + (if IsAttachment(cs[|cs| - 1]) then 1 else 0)
  }

  // ----- One server -----

  /** A running connection to one tool server, as oracles: every request
      either answers or fails with an error text. */
  datatype Connection = Connection(
    id: string,
    listTools: Result<seq<Tool>, string>,
    callTool: (string, Option<Arguments>) -> Result<CallToolResult, string>,
    listPrompts: Result<seq<Prompt>, string>,
    getPrompt: (string, Option<Arguments>) -> Result<PromptResult, string>,
    listResources: Result<seq<Resource>, string>,
    readResource: string -> Result<ReadResult, string>)

  function ServeAll<T>(xs: seq<T>, id: string): (r: seq<Served<T>>)
    ensures |r| == |xs| && forall k :: 0 <= k < |xs| ==> r[k] == Served(xs[k], id)
  {
    seq(|xs|, k requires 0 <= k < |xs| => Served(xs[k], id))
  }

  /** A listing tagged with the server's id; a failure is an `Mcp` error. */
  function Listing<T>(r: Result<seq<T>, string>, id: string): (out: Result<seq<Served<T>>, McpError>)
    ensures r.Err? ==> out == Err(Mcp(r.error))
    ensures r.Ok? ==> out.Ok? && |out.value| == |r.value|
                      && forall k :: 0 <= k < |r.value| ==> out.value[k].value == r.value[k] && out.value[k].serverId == id
  {
    match r
    case Ok(xs) => Ok(ServeAll(xs, id))
    case Err(m) => Err(Mcp(m))
  }

  /** Arguments are passed on only when they are a JSON object. */
  function ObjectMembers(args: Json): Option<Arguments> {
    if args.Object? then Some(args.members) else None
  }

  /** A tool call on one server: the shaped result, or the failure as an `Mcp` error. */
  function CallTool(c: Connection, name: string, args: Json, parse: string -> Option<Json>): (r: Result<Part, McpError>)
    ensures r.Ok? ==> c.callTool(name, ObjectMembers(args)).Ok? && r.value == ShapeResult(name, c.callTool(name, ObjectMembers(args)).value, parse)
    ensures r.Err? ==> r.error.Mcp?
  {
    match c.callTool(name, ObjectMembers(args))
    case Ok(result) => Ok(ShapeResult(name, result, parse))
    case Err(m) => Err(Mcp(m))
  }

  /** A prompt listed by another server is refused before any request. */
  function GetPrompt(c: Connection, p: Served<Prompt>, args: Option<Arguments>): (r: Result<PromptResult, McpError>)
    ensures r == Err(ServerIdMismatch) <==> p.serverId != c.id
  {
    if p.serverId != c.id then Err(ServerIdMismatch)
    else match c.getPrompt(p.value.name, args)
      case Ok(res) => Ok(res)
      case Err(m) => Err(Mcp(m))
  }

  /** A resource listed by another server is refused before any request. */
  function ReadResource(c: Connection, res: Served<Resource>): (r: Result<ReadResult, McpError>)
    ensures r == Err(ServerIdMismatch) <==> res.serverId != c.id
  {
    if res.serverId != c.id then Err(ServerIdMismatch)
    else match c.readResource(res.value.uri)
      case Ok(out) => Ok(out)
      case Err(m) => Err(Mcp(m))
  }

  /** The part a prompt message's content becomes; resource links have none. */
  function PromptPart(content: PromptContent): (r: Option<Part>)
    ensures r.None? <==> content.PromptLink?
    ensures r.Some? ==> r.value.finished
  {
    match content
    case PromptText(t) => Some(Part.Text(t, true))
    case PromptImage(data, mime) => Some(Media(Image, data, mime, None, true))
    case PromptResource(rc) => Some(ResourceToPart(rc))
    case PromptLink => None
  }

  predicate Supported(m: PromptMessage) {
    !m.content.PromptLink?
  }

  /** One single-part message per supported prompt message, with its role. */
  function PromptMessages(ms: seq<PromptMessage>): (r: seq<Message>)
    ensures |r| == Count(ms, Supported)
    ensures forall k :: 0 <= k < |r| ==> |r[k].parts| == 1 && r[k].parts[0].finished
  {
    if ms == [] then []
    else
      var here := PromptPart(ms[0].content);
      (if here.Some? then [MessageOf(ms[0].role, [here.value])] else []) + PromptMessages(ms[1..])
  }

  /** The first listed prompt with the name. */
  function FindPrompt(ps: seq<Served<Prompt>>, name: string): (r: Option<Served<Prompt>>)
    ensures r.Some? <==> exists k :: 0 <= k < |ps| && ps[k].value.name == name
    ensures r.Some? ==> r.value.value.name == name && r.value in ps
  {
    if ps == [] then None
    else if ps[0].value.name == name then Some(ps[0])
    else
      assert forall k :: 1 <= k < |ps| ==> ps[k] == ps[1..][k - 1];
      FindPrompt(ps[1..], name)
  }

  /** A named prompt of one server as messages: a failed listing is an `Mcp`
      error, an unlisted name `PromptNotFound`, and a listed one is asked for
      by its name with the object arguments and its supported messages kept. */
  function PromptOf(c: Connection, name: string, args: Json): (r: Result<seq<Message>, McpError>)
    ensures c.listPrompts.Err? ==> r == Err(Mcp(c.listPrompts.error))
    ensures c.listPrompts.Ok? && (forall k :: 0 <= k < |c.listPrompts.value| ==> c.listPrompts.value[k].name != name) ==>
              r == Err(PromptNotFound(name))
    ensures c.listPrompts.Ok? && (exists k :: 0 <= k < |c.listPrompts.value| && c.listPrompts.value[k].name == name) ==>
              r == match c.getPrompt(name, ObjectMembers(args))
                   case Ok(res) => Ok(PromptMessages(res.messages))
                   case Err(m) => Err(Mcp(m))
  {
    match Listing(c.listPrompts, c.id)
    case Err(e) => Err(e)
    case Ok(ps) =>
      match FindPrompt(ps, name)
      case None => Err(PromptNotFound(name))
      case Some(p) =>
        match GetPrompt(c, p, ObjectMembers(args))
        case Err(e) => Err(e)
        case Ok(res) => Ok(PromptMessages(res.messages))
  }

  /** An unknown prompt name is `PromptNotFound`; a listed one is never
      refused for its id, since this server listed it. */
  lemma PromptLookup(c: Connection, name: string, args: Json)
    requires c.listPrompts.Ok?
    ensures (forall k :: 0 <= k < |c.listPrompts.value| ==> c.listPrompts.value[k].name != name) ==>
              PromptOf(c, name, args) == Err(PromptNotFound(name))
    ensures PromptOf(c, name, args) != Err(ServerIdMismatch)
  {
    var ps := Listing(c.listPrompts, c.id).value;
    if FindPrompt(ps, name).Some? {
      var p := FindPrompt(ps, name).value;
      var k :| 0 <= k < |ps| && ps[k] == p;
      assert p.serverId == c.id;
    } else {
      assert forall k :: 0 <= k < |ps| ==> ps[k].value.name == c.listPrompts.value[k].name;
    }
  }

  // ----- The server interface -----

  /** What any tool server offers, as oracles. */
  datatype Endpoint = Endpoint(
    listTools: Result<seq<Served<Tool>>, McpError>,
    callTool: (string, Json) -> Result<Part, McpError>,
    listPrompts: Result<seq<Served<Prompt>>, McpError>,
    getPrompt: (Served<Prompt>, Option<Arguments>) -> Result<PromptResult, McpError>,
    listResources: Result<seq<Served<Resource>>, McpError>,
    readResource: Served<Resource> -> Result<ReadResult, McpError>,
    prompt: (string, Json) -> Result<seq<Message>, McpError>)

  /** One connection offered as a server. */
  function Serve(c: Connection, parse: string -> Option<Json>): (e: Endpoint)
    ensures e.listTools == Listing(c.listTools, c.id)
    ensures forall name, args :: e.callTool(name, args) == CallTool(c, name, args, parse)
    ensures e.listPrompts == Listing(c.listPrompts, c.id)
    ensures forall p, a :: e.getPrompt(p, a) == GetPrompt(c, p, a)
    ensures e.listResources == Listing(c.listResources, c.id)
    ensures forall r :: e.readResource(r) == ReadResource(c, r)
    ensures forall name, args :: e.prompt(name, args) == PromptOf(c, name, args)
  {
    Endpoint(Listing(c.listTools, c.id),
             (name, args) => CallTool(c, name, args, parse),
             Listing(c.listPrompts, c.id),
             (p, a) => GetPrompt(c, p, a),
             Listing(c.listResources, c.id),
             r => ReadResource(c, r),
             (name, args) => PromptOf(c, name, args))
  }

  // ----- Several servers -----

  /** Listings gathered in server order; the first failure ends it. */
  function Gather<T>(lists: seq<Result<seq<T>, McpError>>): Result<seq<T>, McpError> {
    if lists == [] then Ok([])
    else match lists[0]
      case Err(e) => Err(e)
      case Ok(xs) =>
        match Gather(lists[1..])
        case Err(e) => Err(e)
        case Ok(ys) => Ok(xs + ys)
  }

  /** The gathering loop over servers. */
  method GatherLoop<T>(lists: seq<Result<seq<T>, McpError>>) returns (r: Result<seq<T>, McpError>)
    ensures r == Gather(lists)
  {
    var all: seq<T> := [];
    var i := 0;
    assert lists[0..] == lists;
    match Gather(lists) {
      case Ok(ys) => assert [] + ys == ys;
      case Err(_) =>
    }
    while i < |lists|
      invariant 0 <= i <= |lists|
      invariant Extend(all, Gather(lists[i..])) == Gather(lists)
    {
      assert lists[i..][0] == lists[i] && lists[i..][1..] == lists[i + 1..];
      match lists[i] {
        case Err(e) =>
          return Err(e);
        case Ok(xs) =>
          match Gather(lists[i + 1..]) {
            case Ok(ys) => assert all + (xs + ys) == (all + xs) + ys;
            case Err(_) =>
          }
          all := all + xs;
      }
      i := i + 1;
    }
    assert lists[i..] == [];
    assert all + [] == all;
    return Ok(all);
  }

  /** Gathering fails exactly when a listing fails, with the first failure;
      otherwise it holds every listed item, in server order and each as
      often as it is listed. */
  lemma {:induction false} GatherSpec<T>(lists: seq<Result<seq<T>, McpError>>)
    ensures Gather(lists).Err? <==> exists k :: 0 <= k < |lists| && lists[k].Err?
    ensures Gather(lists).Err? ==>
              exists k :: 0 <= k < |lists| && lists[k].Err? && Gather(lists).error == lists[k].error
                          && forall j :: 0 <= j < k ==> lists[j].Ok?
    ensures Gather(lists).Ok? ==> Gather(lists).value == Concat(Listed(lists))
    ensures Gather(lists).Ok? ==>
              forall x :: x in Gather(lists).value <==> exists k :: 0 <= k < |lists| && x in lists[k].value
    decreases |lists|
  {
    if lists != [] {
      GatherSpec(lists[1..]);
      assert forall k :: 1 <= k < |lists| ==> lists[k] == lists[1..][k - 1];
      if lists[0].Ok? && Gather(lists[1..]).Ok? {
        assert Listed(lists) == [lists[0].value] + Listed(lists[1..]);
        ConcatCons(lists[0].value, Listed(lists[1..]));
      }
      if lists[0].Ok? && Gather(lists[1..]).Err? {
        var k :| 0 <= k < |lists[1..]| && lists[1..][k].Err? && Gather(lists[1..]).error == lists[1..][k].error
                 && forall j :: 0 <= j < k ==> lists[1..][j].Ok?;
        assert lists[k + 1].Err?;
      }
    }
  }

  /** The items of each listing, in server order; a failed listing has none. */
  function Listed<T>(lists: seq<Result<seq<T>, McpError>>): (r: seq<seq<T>>)
    ensures |r| == |lists|
  {
    seq(|lists|, k requires 0 <= k < |lists| => if lists[k].Ok? then lists[k].value else [])
  }

  /** Item lists joined end to end, built from the back. */
  function Concat<T>(xss: seq<seq<T>>): seq<T> {
    if xss == [] then [] else Concat(xss[..|xss| - 1]) + xss[|xss| - 1]
  }

  lemma {:induction false} ConcatCons<T>(xs: seq<T>, xss: seq<seq<T>>)
    ensures Concat([xs] + xss) == xs + Concat(xss)
    decreases |xss|
  {
    if xss == [] {
      assert ([xs] + xss)[..0] == [];
    } else {
      var init := xss[..|xss| - 1];
      ConcatCons(xs, init);
      assert ([xs] + xss)[..|xss|] == [xs] + init;
      assert ([xs] + xss)[|xss|] == xss[|xss| - 1];
    }
  }

  predicate HasTool(ts: seq<Served<Tool>>, name: string) {
    exists k :: 0 <= k < |ts| && ts[k].value.name == name
  }

  /** A tool call routed to the first server whose listing has the name. */
  function RouteCall(servers: seq<Endpoint>, name: string, args: Json): Result<Part, McpError> {
    if servers == [] then Err(ToolNotFound(name))
    else match servers[0].listTools
      case Err(e) => Err(e)
      case Ok(ts) => if HasTool(ts, name) then servers[0].callTool(name, args) else RouteCall(servers[1..], name, args)
  }

  method RouteCallLoop(servers: seq<Endpoint>, name: string, args: Json) returns (r: Result<Part, McpError>)
    ensures r == RouteCall(servers, name, args)
  {
    var i := 0;
    while i < |servers|
      invariant 0 <= i <= |servers|
      invariant RouteCall(servers[i..], name, args) == RouteCall(servers, name, args)
    {
      assert servers[i..][0] == servers[i] && servers[i..][1..] == servers[i + 1..];
      var tools := servers[i].listTools;
      if tools.Err? {
        return Err(tools.error);
      }
      var found := false;
      var j := 0;
      while j < |tools.value|
        invariant 0 <= j <= |tools.value|
        invariant found <==> exists k :: 0 <= k < j && tools.value[k].value.name == name
      {
        if tools.value[j].value.name == name {
          found := true;
        }
        j := j + 1;
      }
      if found {
        return servers[i].callTool(name, args);
      }
      i := i + 1;
    }
    return Err(ToolNotFound(name));
  }

  /** A call goes to the first server that lists the tool, after servers
      that list it not; when none does, it is `ToolNotFound`. */
  lemma {:induction false} CallGoesToFirstClaimer(servers: seq<Endpoint>, name: string, args: Json, k: nat)
    requires k <= |servers|
    requires forall j :: 0 <= j < k ==> servers[j].listTools.Ok? && !HasTool(servers[j].listTools.value, name)
    ensures k < |servers| && servers[k].listTools.Ok? && HasTool(servers[k].listTools.value, name) ==>
              RouteCall(servers, name, args) == servers[k].callTool(name, args)
    ensures k == |servers| ==> RouteCall(servers, name, args) == Err(ToolNotFound(name))
    decreases k
  {
    if k > 0 {
      assert forall j :: 0 <= j < k - 1 ==> servers[1..][j] == servers[j + 1];
      CallGoesToFirstClaimer(servers[1..], name, args, k - 1);
    }
  }

  /** A prompt request goes through the servers, skipping those that did not
      list it; when all skip, the server is not found. */
  function RouteGetPrompt(servers: seq<Endpoint>, p: Served<Prompt>, args: Option<Arguments>): Result<PromptResult, McpError> {
    if servers == [] then Err(ServerNotFound(p.serverId))
    else match servers[0].getPrompt(p, args)
      case Ok(res) => Ok(res)
      case Err(ServerIdMismatch) => RouteGetPrompt(servers[1..], p, args)
      case Err(e) => Err(e)
  }

  method RouteGetPromptLoop(servers: seq<Endpoint>, p: Served<Prompt>, args: Option<Arguments>) returns (r: Result<PromptResult, McpError>)
    ensures r == RouteGetPrompt(servers, p, args)
  {
    var i := 0;
    while i < |servers|
      invariant 0 <= i <= |servers|
      invariant RouteGetPrompt(servers[i..], p, args) == RouteGetPrompt(servers, p, args)
    {
      assert servers[i..][0] == servers[i] && servers[i..][1..] == servers[i + 1..];
      var answer := servers[i].getPrompt(p, args);
      if answer.Ok? || answer.error != ServerIdMismatch {
        return answer;
      }
      i := i + 1;
    }
    return Err(ServerNotFound(p.serverId));
  }

  function RouteRead(servers: seq<Endpoint>, res: Served<Resource>): Result<ReadResult, McpError> {
    if servers == [] then Err(ServerNotFound(res.serverId))
    else match servers[0].readResource(res)
      case Ok(out) => Ok(out)
      case Err(ServerIdMismatch) => RouteRead(servers[1..], res)
      case Err(e) => Err(e)
  }

  method RouteReadLoop(servers: seq<Endpoint>, res: Served<Resource>) returns (r: Result<ReadResult, McpError>)
    ensures r == RouteRead(servers, res)
  {
    var i := 0;
    while i < |servers|
      invariant 0 <= i <= |servers|
      invariant RouteRead(servers[i..], res) == RouteRead(servers, res)
    {
      assert servers[i..][0] == servers[i] && servers[i..][1..] == servers[i + 1..];
      var answer := servers[i].readResource(res);
      if answer.Ok? || answer.error != ServerIdMismatch {
        return answer;
      }
      i := i + 1;
    }
    return Err(ServerNotFound(res.serverId));
  }

  /** Among servers built from connections, a prompt request reaches the
      first connection whose id is the prompt's, and is `ServerNotFound` when
      there is none. */
  lemma {:induction false} PromptReachesItsServer(cs: seq<Connection>, p: Served<Prompt>, args: Option<Arguments>, parse: string -> Option<Json>, k: nat)
    requires k <= |cs|
    requires forall j :: 0 <= j < k ==> cs[j].id != p.serverId
    ensures var servers := seq(|cs|, j requires 0 <= j < |cs| => Serve(cs[j], parse));
            && (k < |cs| && cs[k].id == p.serverId ==> RouteGetPrompt(servers, p, args) == GetPrompt(cs[k], p, args))
            && (k == |cs| ==> RouteGetPrompt(servers, p, args) == Err(ServerNotFound(p.serverId)))
    decreases k
  {
    var servers := seq(|cs|, j requires 0 <= j < |cs| => Serve(cs[j], parse));
    if k > 0 {
      PromptReachesItsServer(cs[1..], p, args, parse, k - 1);
      var rest := seq(|cs[1..]|, j requires 0 <= j < |cs[1..]| => Serve(cs[1..][j], parse));
      assert servers[1..] == rest;
      assert servers[0].getPrompt(p, args) == Err(ServerIdMismatch);
    } else if k < |cs| && cs[k].id == p.serverId {
      assert servers[0].getPrompt(p, args) == GetPrompt(cs[0], p, args);
    }
  }

  /** Skipped servers are exactly those reporting an id mismatch: any other
      error ends the search. */
  lemma {:induction false} ReadSkipsOnlyMismatches(servers: seq<Endpoint>, res: Served<Resource>, k: nat)
    requires k < |servers|
    requires forall j :: 0 <= j < k ==> servers[j].readResource(res) == Err(ServerIdMismatch)
    requires servers[k].readResource(res) != Err(ServerIdMismatch)
    ensures RouteRead(servers, res) == servers[k].readResource(res)
    decreases k
  {
    if k > 0 {
      assert forall j :: 0 <= j < k - 1 ==> servers[1..][j] == servers[j + 1];
      ReadSkipsOnlyMismatches(servers[1..], res, k - 1);
    }
  }

  predicate ListsPrompt(ps: seq<Served<Prompt>>, name: string) {
    exists k :: 0 <= k < |ps| && ps[k].value.name == name
  }

  function RoutePrompt(servers: seq<Endpoint>, name: string, args: Json): Result<seq<Message>, McpError> {
    if servers == [] then Err(PromptNotFound(name))
    else match servers[0].listPrompts
      case Err(e) => Err(e)
      case Ok(ps) => if ListsPrompt(ps, name) then servers[0].prompt(name, args) else RoutePrompt(servers[1..], name, args)
  }

  /** Several servers offered as one. */
  function Combine(servers: seq<Endpoint>): (e: Endpoint)
    ensures e.listTools == Gather(seq(|servers|, k requires 0 <= k < |servers| => servers[k].listTools))
    ensures forall name, args :: e.callTool(name, args) == RouteCall(servers, name, args)
    ensures e.listPrompts == Gather(seq(|servers|, k requires 0 <= k < |servers| => servers[k].listPrompts))
    ensures forall p, a :: e.getPrompt(p, a) == RouteGetPrompt(servers, p, a)
    ensures e.listResources == Gather(seq(|servers|, k requires 0 <= k < |servers| => servers[k].listResources))
    ensures forall r :: e.readResource(r) == RouteRead(servers, r)
    ensures forall name, args :: e.prompt(name, args) == RoutePrompt(servers, name, args)
  {
    Endpoint(Gather(seq(|servers|, k requires 0 <= k < |servers| => servers[k].listTools)),
             (name, args) => RouteCall(servers, name, args),
             Gather(seq(|servers|, k requires 0 <= k < |servers| => servers[k].listPrompts)),
             (p, a) => RouteGetPrompt(servers, p, a),
             Gather(seq(|servers|, k requires 0 <= k < |servers| => servers[k].listResources)),
             r => RouteRead(servers, r),
             (name, args) => RoutePrompt(servers, name, args))
  }

  // ----- Attaching resources -----

  function ResourceParts(cs: seq<ResourceContents>): (r: seq<Part>)
    ensures |r| == |cs| && forall k :: 0 <= k < |cs| ==> r[k] == ResourceToPart(cs[k])
  {
    seq(|cs|, k requires 0 <= k < |cs| => ResourceToPart(cs[k]))
  }

  /** The parts the resources add, read in order; the first failed read ends it. */
  function AttachedParts(server: Endpoint, resources: seq<Served<Resource>>): Result<seq<Part>, McpError> {
    if resources == [] then Ok([])
    else match server.readResource(resources[0])
      case Err(e) => Err(e)
      case Ok(out) => Extend(ResourceParts(out.contents), AttachedParts(server, resources[1..]))
  }

  /** Reads every resource and appends a part per content item to the message. */
  method AttachToMessage(m: Message, server: Endpoint, resources: seq<Served<Resource>>) returns (r: Result<Message, McpError>)
    ensures r == match AttachedParts(server, resources)
                 case Err(e) => Err(e)
                 case Ok(ps) => Ok(WithParts(m, m.parts + ps))
  {
    var parts := m.parts;
    var i := 0;
    while i < |resources|
      invariant 0 <= i <= |resources|
      invariant Extend(parts, AttachedParts(server, resources[i..])) == Extend(m.parts, AttachedParts(server, resources))
    {
      assert resources[i..][0] == resources[i] && resources[i..][1..] == resources[i + 1..];
      var result := server.readResource(resources[i]);
      if result.Err? {
        return Err(result.error);
      }
      var before := parts;
      var contents := result.value.contents;
      var j := 0;
      while j < |contents|
        invariant 0 <= j <= |contents|
        invariant parts == before + ResourceParts(contents[..j])
      {
        assert ResourceParts(contents[..j + 1]) == ResourceParts(contents[..j]) + [ResourceToPart(contents[j])];
        parts := parts + [ResourceToPart(contents[j])];
        j := j + 1;
      }
      assert contents[..j] == contents;
      match AttachedParts(server, resources[i + 1..]) {
        case Ok(ys) => assert before + (ResourceParts(contents) + ys) == parts + ys;
        case Err(_) =>
      }
      i := i + 1;
    }
    assert resources[i..] == [];
    assert Extend(parts, AttachedParts(server, resources[i..])) == Ok(parts + []);
    assert parts + [] == parts;
    var ps := AttachedParts(server, resources).value;
    assert parts == m.parts + ps;
    return Ok(WithParts(m, parts));
  }

  /** Attaches the resources to the first message only: it is taken out,
      extended and put back in its place. */
  method AttachToFirst(ms: seq<Message>, server: Endpoint, resources: seq<Served<Resource>>) returns (r: Result<seq<Message>, McpError>)
    ensures ms == [] ==> r == Ok(ms)
    ensures ms != [] ==>
              r == match AttachedParts(server, resources)
                   case Err(e) => Err(e)
                   case Ok(ps) => Ok([WithParts(ms[0], ms[0].parts + ps)] + ms[1..])
  {
    if |ms| == 0 {
      return Ok(ms);
    }
    var first := ms[0];
    var rest := ms[1..];
    var attached := AttachToMessage(first, server, resources);
    if attached.Err? {
      return Err(attached.error);
    }
    return Ok([attached.value] + rest);
  }

  /** Only the first message changes, keeping its role and its parts as a
      prefix; the others and the count are kept. */
  lemma AttachTouchesOnlyFirst(ms: seq<Message>, ps: seq<Part>)
    requires ms != []
    ensures var r := [WithParts(ms[0], ms[0].parts + ps)] + ms[1..];
            && |r| == |ms| && RoleOf(r[0]) == RoleOf(ms[0]) && r[0].parts[..|ms[0].parts|] == ms[0].parts
            && forall k :: 1 <= k < |ms| ==> r[k] == ms[k]
  {
    var r := [WithParts(ms[0], ms[0].parts + ps)] + ms[1..];
    assert r[0].parts == ms[0].parts + ps;
  }
}
