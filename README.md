# unia in Dafny

unia is a Rust client that puts three LLM chat protocols (Anthropic
Messages, Gemini generateContent and OpenAI chat completions) behind one
conversation model. It adds an agent loop that runs tool calls against Model
Context Protocol (MCP) servers.

This project models the in-memory logic of that client:

- the unified message model and its usage arithmetic (`Model`);
- the Server-Sent-Events line framer that every streaming transport reads
  through (`Sse`);
- for each provider, the incremental stream decoder, the whole-response
  converter and the request builder (`Anthropic`, `Gemini`, `OpenAi`);
- the MCP result shaping, resource classification and multi-server routing
  (`Mcp`);
- the agent's one-shot and streamed tool-execution loops (`Agent`);
- the legacy provider layer, written against an older flat message shape
  (`LegacyModel`, `LegacyGemini`, `LegacyOpenAi`).

Everything the client gets from outside is a parameter:

- JSON parsing, JSON serialisation and base64-to-UTF-8 decoding are
  function values;
- the model transport is a function from the round number, the conversation
  and the tool list to a response or to a finite sequence of streamed
  responses;
- a tool server is an `Endpoint`, a record of functions.

Provider events arrive already deserialised. A payload that does not
deserialise is an `Incoming.Malformed` item.

The stream decoders and the agent loops are methods with loops. Each is proved
equal to a pure recursive specification (`Run`, `ChatLoop`, `StreamLoop`).
The lemmas about those specifications state what the source promises: one
snapshot per event, usage overwritten rather than summed, every part finished
after a finish reason, a delta reaching only its own part, the round bound,
the order of history and output.

Where the code and its documentation disagree, the model follows the code:

- The OpenAI stream decoder reads every choice of a chunk. The whole-response
  converter reads only the first.
- The OpenAI stream decoder keeps its running text part after a finish
  reason, so later content is appended to that closed part.
- The OpenAI request builder sends nothing for `Reasoning` parts.
- The streamed agent loop looks for calls in the last message of the whole
  output, not of the round. After a round whose stream yields nothing, that
  message is the previous round's tool answers (function responses), or there
  is none in the first round, so the chat ends.
- The legacy message shape asks every message for its role, but no role is
  defined for legacy function calls and responses. The model takes the
  assistant for a call and the user for a response
  (`LegacyModel.RoleOf`).

## Model

| member | source | states |
|---|---|---|
| Model.RoleOf | src/model.rs:92-97 | the role is `User` exactly for a `User` message |
| Model.WithParts | src/model.rs:108-113 | writing parts back through the mutable accessor keeps the role and replaces exactly the parts |
| Model.Content | src/model.rs:116-132 | absent exactly when no part is `Text` or `Reasoning`; otherwise those parts' texts in order joined by newlines |
| Model.ContentAppendTextual | src/model.rs:116-132 | appending a `Text` or `Reasoning` part adds its text as one more line, or makes it the content |
| Model.ContentIgnoresOthers | src/model.rs:116-132 | appending any other part leaves the content unchanged |
| Model.AnchorMedia | src/model.rs:69-77 | defined only for Media parts; the result is `File (`, the MIME type, `) at `, the uri or `unknown`, then `:` |
| Model.AddCount | src/model.rs:190-201 | an absent counter is the identity on either side; two present counters are summed |
| Model.AddIdentity | src/model.rs:187-202 | the default usage is a two-sided identity of addition |
| Model.AddCommutative | src/model.rs:187-202 | usage addition is commutative |
| Model.AddAssociative | src/model.rs:187-202 | usage addition is associative |
| Model.AddMonotone | src/model.rs:187-202 | adding never loses a present counter and never lowers it |
| Model.FinishAll | src/api/gemini.rs:283-291 | every part is marked finished and nothing else about it changes |
| Sse.WhitespaceIsListed | src/sse.rs:81 | the whitespace test is membership in the Unicode White_Space list |
| Sse.TrimSpec | src/sse.rs:81 | trimming returns a slice of the line, cut only at whitespace, that neither starts nor ends with whitespace |
| Sse.ParseSseLine | src/sse.rs:139-141 | a value exactly when the line starts with `data: `, and then the trimmed rest |
| Sse.IsDoneMarker | src/sse.rs:155-157 | true exactly for `[DONE]` |
| Sse.ParseSseLineKeepsData | src/sse.rs:164-169 | the unit-test cases of a data line |
| Sse.ParseSseLineTrimsData | src/sse.rs:170 | the payload is trimmed |
| Sse.ParseSseLineRejects | src/sse.rs:171-172 | lines without the prefix, and the empty line, give nothing |
| Sse.DoneMarkerExamples | src/sse.rs:176-181 | the unit-test cases of the done marker |
| Sse.NewlineIndexIsFirst | src/sse.rs:80 | the newline found is the first one, and none is found only when there is none |
| Sse.FrameSkipsLine | src/sse.rs:84-90 | a complete line that is blank or not a data line contributes nothing |
| Sse.FrameDataLine | src/sse.rs:90-97 | a complete data line contributes its trimmed data ahead of what follows |
| Sse.FrameStopsAtDone | src/sse.rs:92-94 | nothing after a complete `[DONE]` line is emitted |
| Sse.FrameAppend | src/sse.rs:58-119 | framing a text that ends in a newline and then more text is framing each in turn |
| Sse.NextPayload | src/sse.rs:80-99 | the inner loop drops lines until one carries data, and the framing of what remains is unchanged |
| Sse.FlushTail | src/sse.rs:102-116 | at end of stream, the unterminated last line yields its trimmed data unless it is blank, not a data line or `[DONE]`, exactly as the framing specification of the tail says |
| Sse.Frame | src/sse.rs:55-121 | the emitted payloads are exactly the framing of the valid text of all chunks; transport errors are passed on in order until `[DONE]` |
| Anthropic.InitialSnapshot | src/api/anthropic.rs:191-195 | decoding starts from one empty Assistant message, no usage and an unfinished response |
| Anthropic.StartPart | src/api/anthropic.rs:212-238 | text, tool-use and thinking blocks start one unfinished part; other kinds start none |
| Anthropic.DeltaPart | src/api/anthropic.rs:241-266 | text and thinking deltas append to a part of their kind, a signature delta replaces the signature, a mismatch changes nothing |
| Anthropic.StreamFinish | src/api/anthropic.rs:290-297 | `max_tokens` gives OutputTokens, `tool_use` gives ToolCalls, anything else Stop |
| Anthropic.Handle | src/api/anthropic.rs:207-310 | the loop body's new state, emission and error are those of the one-event specification |
| Anthropic.Decode | src/api/anthropic.rs:186-314 | the snapshots and the error are those of the specification over the whole stream |
| Anthropic.SnapshotsHoldOneAssistant | src/api/anthropic.rs:186-314 | every snapshot holds exactly one Assistant message |
| Anthropic.UsageIsOverwritten | src/api/anthropic.rs:207-301 | `message_start` sets both counters, `message_delta` overwrites only the completion count; nothing is summed |
| Anthropic.StartAppendsOnePart | src/api/anthropic.rs:212-238 | a block start appends exactly one unfinished part for decoded kinds, with `Null` arguments and an empty buffer for tool use |
| Anthropic.DeltaTouchesOnlyItsIndex | src/api/anthropic.rs:241-266 | a delta changes only the part at its index; out of range it changes nothing |
| Anthropic.JsonDeltaAppendsToBuffer | src/api/anthropic.rs:250-254 | a JSON fragment is appended to its own index's buffer and to no part |
| Anthropic.StopFinishesItsPart | src/api/anthropic.rs:269-286 | a block stop finishes only its part; a tool call takes the parsed buffer, or keeps `Null` when it does not parse |
| Anthropic.ApplyKeepsPendingCallsNull | src/api/anthropic.rs:219-286 | unfinished tool calls keep `Null` arguments until their block stops |
| Anthropic.OneSnapshotPerEvent | src/api/anthropic.rs:199-310 | the stream fails exactly when an item is an error event or malformed, and otherwise yields one snapshot per non-ping event |
| Anthropic.ErrorEventAborts | src/api/anthropic.rs:308-310 | an error event ends the stream with a provider error naming its type and message |
| Anthropic.PingIsSilent | src/api/anthropic.rs:307 | a ping neither changes the state nor yields |
| Anthropic.AlignedDeltaReachesItsBlock | src/api/anthropic.rs:241-248 | when indices and positions agree, a text delta reaches the part its block started |
| Anthropic.RedactedThinkingShiftsIndices | src/api/anthropic.rs:212-287 | as written: after a redacted-thinking block, a text block's delta and stop miss its part |
| Anthropic.IndexedDeltaReachesItsBlock | src/api/anthropic.rs:212-287 | corrected: a text delta reaches the part its block started, whatever blocks came before |
| Anthropic.IndexedRedactedThinking | src/api/anthropic.rs:212-287 | corrected: the same events give the finished text |
| Anthropic.ResponsePart | src/api/anthropic.rs:673-699 | every part it gives is finished |
| Anthropic.ResponseParts | src/api/anthropic.rs:671-700 | one finished part per decoded block |
| Anthropic.ToResponse | src/api/anthropic.rs:669-719 | one Assistant message whose parts are the kept blocks' parts, finished and in block order; both counters present; the stop reason mapped as a whole response maps it (absent gives Stop), so never Unfinished |
| Anthropic.StopReasonsAgree | src/api/anthropic.rs:702-708 | stream and whole response map every stop reason alike, and an absent reason to Stop |
| Anthropic.StartAgreesWithWhole | src/api/anthropic.rs:669-700 | the stream starts a part for exactly the blocks the whole response keeps, with the same content |
| Anthropic.PartBlocks | src/api/anthropic.rs:466-577 | calls and responses give no block exactly when they lack an id; text, reasoning and media always give blocks |
| Anthropic.RequestMessages | src/api/anthropic.rs:459-586 | at most one request message per message, each non-empty and with a valid role |
| Anthropic.ThinkingFor | src/api/anthropic.rs:598-606 | thinking is on exactly when reasoning is explicitly true, with budget 1024 unless set |
| Anthropic.BuildRequest | src/api/anthropic.rs:613-628 | max tokens default to 1024, the system prompt is one block, stream is set only when streaming, one tool entry per tool |
| Anthropic.EmptyMessagesOmitted | src/api/anthropic.rs:580-585 | the request holds exactly the messages that have a block |
| Anthropic.RequestFollowsMessages | src/api/anthropic.rs:459-586 | the k-th request message is the k-th message that has a block: a user message sent as `user`, an assistant message as `assistant`, carrying its own parts' blocks |
| Anthropic.RolesFollowSenders | src/api/anthropic.rs:459-586 | one `assistant` entry per assistant message with a block and one `user` entry per user message with a block |
| Anthropic.OneToolUsePerCallWithId | src/api/anthropic.rs:511-520 | one tool-use block per function call with an id |
| Anthropic.RequestThenResponse | src/api/anthropic.rs:466-577 | reading back the blocks of text, calls with ids and reasoning gives the parts, finished |
| Anthropic.EchoPart | src/api/anthropic.rs:466-577 | one such part reads back as itself, finished |
| Anthropic.WholeResponseEchoes | src/api/anthropic.rs:669-719 | a whole response carrying the blocks an assistant turn of echoable parts is sent as reads back as that turn, finished, and its stop reason gives what the stream would give |
| Gemini.FinishReasons | src/api/gemini.rs:293-299 | `MAX_TOKENS` gives OutputTokens, `SAFETY` and `RECITATION` give ContentFilter, everything else Stop |
| Gemini.AbsorbPart | src/api/gemini.rs:202-278 | one wire part of a candidate (text or thought, function call, anything else ignored) updates the parts and the last kind exactly as the stream specification does for that part |
| Gemini.AbsorbParts | src/api/gemini.rs:201-279 | the loop over a candidate's parts gives the specification's state |
| Gemini.FinishParts | src/api/gemini.rs:283-291 | the loop marks every part finished |
| Gemini.Handle | src/api/gemini.rs:191-301 | the loop body gives the one-chunk specification's state |
| Gemini.Decode | src/api/gemini.rs:170-307 | the snapshots and the error are those of the specification over the whole stream |
| Gemini.UsageIsOverwritten | src/api/gemini.rs:191-194 | metadata replaces the usage: the prompt count and candidates plus thoughts, absent counts as zero |
| Gemini.StreamPartsFrame | src/api/gemini.rs:199-279 | parts never touch the usage or the finish reason |
| Gemini.InitialIsConsistent | src/api/gemini.rs:175-183 | the start state tracks no kind and holds one empty Assistant message |
| Gemini.TextPartMerges | src/api/gemini.rs:203-253 | text extends the last part when it is unfinished and of the same kind; a change of kind closes the last part before a new unfinished one is pushed |
| Gemini.CallPartPushes | src/api/gemini.rs:255-276 | every call pushes one unfinished call with no id and the chunk's arguments and signature |
| Gemini.OtherPartsIgnored | src/api/gemini.rs:277 | function responses and inline data in a chunk change nothing |
| Gemini.ApplyKeepsConsistent | src/api/gemini.rs:191-301 | the tracked kind stays the kind of the last part |
| Gemini.FinishClosesEverything | src/api/gemini.rs:282-299 | a finish reason closes every part and never gives ToolCalls or Unfinished |
| Gemini.NoReasonKeepsFinish | src/api/gemini.rs:196-302 | without a finish reason the finish is kept; without a candidate the parts are kept |
| Gemini.OnlyFirstCandidate | src/api/gemini.rs:196-197 | candidates after the first are ignored |
| Gemini.OneSnapshotPerChunk | src/api/gemini.rs:185-305 | the stream fails exactly when an item is not a chunk, and otherwise yields one snapshot per chunk |
| Gemini.MalformedAborts | src/api/gemini.rs:188-189 | a payload that does not deserialise ends the stream with a provider error |
| Gemini.BlobParts | src/api/gemini.rs:609-619 | each response blob becomes a finished Binary media part without uri |
| Gemini.ResponsePart | src/api/gemini.rs:585-630 | inline data is dropped; thoughts become Reasoning, other text Text, all finished |
| Gemini.ResponseParts | src/api/gemini.rs:584-631 | one finished part per kept wire part |
| Gemini.ToResponse | src/api/gemini.rs:575-656 | one Assistant message holding the finished parts of the first candidate's content in order (none without a candidate or content); the first candidate's reason mapped, Unfinished exactly without one; the metadata's usage, default without metadata |
| Gemini.WholeAgreesWithStream | src/api/gemini.rs:634-649 | whole response and stream read usage and finish reasons alike |
| Gemini.MediaBlobs | src/api/gemini.rs:457-471 | one blob per media attachment of a function response |
| Gemini.RequestPart | src/api/gemini.rs:433-483 | two wire parts for a media part (its anchor line and its data), one for any other part |
| Gemini.RequestParts | src/api/gemini.rs:431-484 | no wire parts exactly for a message without parts |
| Gemini.Contents | src/api/gemini.rs:425-492 | one content entry per message that has parts, with a valid role |
| Gemini.ContentsFollowMessages | src/api/gemini.rs:425-492 | the k-th content entry is the k-th message that has parts: an assistant message sent as `model`, a user message as `user`, carrying its own parts' wire parts |
| Gemini.RolesFollowSenders | src/api/gemini.rs:425-492 | one `model` entry per assistant message with parts and one `user` entry per user message with parts |
| Gemini.Declaration | src/api/gemini.rs:496-500 | a tool keeps its name and schema, the description defaulting to empty |
| Gemini.ToolEntries | src/api/gemini.rs:494-504 | no entry exactly without tools; otherwise one entry declaring every tool |
| Gemini.ThinkingFor | src/api/gemini.rs:522-530 | thinking is configured exactly when reasoning or thought inclusion is on |
| Gemini.BuildRequest | src/api/gemini.rs:506-533 | contents, tools, system instruction, token limit and thinking configuration as above |
| Gemini.RequestThenResponse | src/api/gemini.rs:431-484 | reading back the wire parts of a message gives one finished part per part |
| Gemini.EchoPart | src/api/gemini.rs:433-483 | one part reads back as its echo |
| Gemini.WholeResponseEchoes | src/api/gemini.rs:575-656 | a whole response whose one candidate carries a turn's wire parts reads back as the turn's echo, with the candidate's reason mapped and the metadata's usage |
| OpenAi.FinishReasonsAgree | src/api/openai.rs:244-250 | stream and whole response map reasons alike; `length`, `tool_calls` and `content_filter` map to their own reasons, anything else and absence to Stop |
| OpenAi.UpdateCall | src/api/openai.rs:205-219 | a fragment keeps a call a call and leaves other parts alone |
| OpenAi.FinishPart | src/api/openai.rs:225-242 | a closed part is finished and keeps its kind |
| OpenAi.Finished | src/api/openai.rs:225-242 | every part closed |
| OpenAi.AbsorbToolCalls | src/api/openai.rs:192-221 | the loop over tool-call fragments gives the specification's state |
| OpenAi.FinishParts | src/api/openai.rs:224-243 | the loop closes every part as specified |
| OpenAi.Handle | src/api/openai.rs:172-252 | the loop body gives the one-chunk specification's state |
| OpenAi.Decode | src/api/openai.rs:152-258 | the snapshots and the error are those of the specification over the whole stream |
| OpenAi.UsageIsOverwritten | src/api/openai.rs:172-175 | a chunk's usage replaces both counters |
| OpenAi.ToolCallsKeepUsage | src/api/openai.rs:192-221 | tool-call fragments touch neither usage, finish nor the text position |
| OpenAi.ChoicesKeepUsage | src/api/openai.rs:177-252 | choices never touch the usage |
| OpenAi.InitialIsIndexed | src/api/openai.rs:157-164 | the start state's bookkeeping holds and it is one empty Assistant message |
| OpenAi.TextDeltaAppends | src/api/openai.rs:181-190 | the first content delta starts one text part and records it; later ones append to it |
| OpenAi.ToolCallAddressesItsPart | src/api/openai.rs:194-203 | a new tool-call index pushes one blank unfinished call; a known one addresses its own call |
| OpenAi.CallFragmentsAppend | src/api/openai.rs:205-218 | an id replaces, name and argument fragments append while the arguments are text |
| OpenAi.KnownCallKeepsIndexed | src/api/openai.rs:194-219 | a fragment for a known index keeps the index map and the number of parts |
| OpenAi.NewCallKeepsIndexed | src/api/openai.rs:194-219 | a fragment for a new index records the new call's position and adds one part |
| OpenAi.ApplyToolCallKeepsIndexed | src/api/openai.rs:192-221 | each index keeps naming a distinct call |
| OpenAi.ApplyToolCallsKeepsIndexed | src/api/openai.rs:192-221 | the same over a fragment list |
| OpenAi.ApplyTextKeepsIndexed | src/api/openai.rs:181-190 | text keeps the bookkeeping |
| OpenAi.FinishKeepsIndexed | src/api/openai.rs:224-251 | closing keeps the bookkeeping |
| OpenAi.ApplyChoiceKeepsIndexed | src/api/openai.rs:177-252 | one choice keeps the bookkeeping and every known index |
| OpenAi.ApplyChoicesKeepsIndexed | src/api/openai.rs:177-252 | every choice of a chunk does too |
| OpenAi.ApplyKeepsIndexed | src/api/openai.rs:172-252 | every chunk keeps the bookkeeping, and an index once seen keeps its call |
| OpenAi.SnapshotsHoldAtMostOneText | src/api/openai.rs:164-190 | every snapshot holds at most one text part |
| OpenAi.FinishClosesEverything | src/api/openai.rs:176-251 | after the choice's delta, if any (an empty one changes nothing), a finish reason closes every part, parses each call's argument text or gives `{}`, keeps other parts' content and the usage, and sets the mapped reason |
| OpenAi.OneSnapshotPerChunk | src/api/openai.rs:166-255 | the stream fails exactly when an item is not a chunk, and otherwise yields one snapshot per chunk |
| OpenAi.MalformedAborts | src/api/openai.rs:169-170 | a payload that does not deserialise ends the stream with a provider error quoting it |
| OpenAi.CallPart | src/api/openai.rs:561-567 | a finished call with the id and name; unparseable arguments become `Null` |
| OpenAi.CallParts | src/api/openai.rs:559-569 | one call part per tool call, in order |
| OpenAi.ToResponse | src/api/openai.rs:550-593 | only the first choice: its text part, then exactly its tool calls as call parts in order (unparsable arguments Null), all finished; its reason mapped, Stop without choices; never Unfinished; the usage when reported |
| OpenAi.MediaContent | src/api/openai.rs:384-406 | a media part is its anchor line, then an image as a `data:<mime>;base64,<data>` URL, or any other kind as file data named by its uri |
| OpenAi.ToolCallsOf | src/api/openai.rs:407-418 | one tool call per function call with an id |
| OpenAi.ToolCallId | src/api/openai.rs:419-421 | present exactly when some function response has an id, and then the id of the last such response |
| OpenAi.ContentOf | src/api/openai.rs:454-465 | a single text part or none is a plain string, otherwise the parts |
| OpenAi.MessageFor | src/api/openai.rs:370-474 | the role is `tool` exactly when a function response with an id is present, otherwise `user` or `assistant`; the call id is the last such response's; the content is the message's content parts (a single text as a plain string) and the tool calls are its calls with ids |
| OpenAi.MessagesFor | src/api/openai.rs:370-474 | one request message per message |
| OpenAi.BuildRequest | src/api/openai.rs:349-508 | the system message first when set, one message per message, `o1`/`o3` models use the completion-token limit |
| OpenAi.SentCallsComeBack | src/api/openai.rs:407-418 | calls with ids whose arguments survive serialisation read back from a response as the same calls, finished |
| OpenAi.EchoCalls | src/api/openai.rs:559-569 | the calls with ids, finished |
| OpenAi.WholeResponseEchoes | src/api/openai.rs:550-593 | a whole response whose first choice carries a message's calls reads back as those calls, finished, with the reason the stream would give |
| OpenAi.TextOnlyContent | src/api/openai.rs:381-383 | text-only messages send one text content part per text |
| Mcp.ResourceToPart | src/mcp.rs:421-451 | a finished media part carrying the resource's uri |
| Mcp.ResourceClassification | src/mcp.rs:423-449 | text resources are Text under `text/plain` by default; blobs default to `application/octet-stream` and are Image exactly for `image/`, Document exactly for `application/pdf`, otherwise Binary |
| Mcp.ResourceExamples | src/mcp.rs:421-451 | the classification on concrete MIME types |
| Mcp.ShapeResult | src/mcp.rs:171-177 | a finished function response with no id and the requested name |
| Mcp.FoldResult | src/mcp.rs:133-177 | the content loop gives the shaped result |
| Mcp.LastParsedIsLast | src/mcp.rs:140-145 | the parsed text kept is present exactly when a text parses, and is the last such |
| Mcp.UnparsedTextsAreKept | src/mcp.rs:140-145 | without parsed texts every text is kept raw, in order |
| Mcp.ResponsePrecedence | src/mcp.rs:163-169 | structured content, then the last parsed text, then the raw texts, then `{}` |
| Mcp.AttachmentsAreMedia | src/mcp.rs:147-159 | one finished media part per image or embedded resource, in content order: an image becomes Image media with its data and MIME type and no uri, a resource its resource part |
| Mcp.OtherContentIsDropped | src/mcp.rs:147-159 | removing content that is neither an image nor a resource leaves the attachments unchanged |
| Mcp.ServeAll | src/mcp.rs:113-117 | every listed item is tagged with the server's id |
| Mcp.Listing | src/mcp.rs:106-118 | a failed listing is an MCP error; otherwise one tagged item per item |
| Mcp.CallTool | src/mcp.rs:120-178 | the shaped result of the server's answer, or an MCP error |
| Mcp.GetPrompt | src/mcp.rs:194-211 | refused with an id mismatch exactly when the prompt's server id differs |
| Mcp.ReadResource | src/mcp.rs:227-242 | refused with an id mismatch exactly when the resource's server id differs |
| Mcp.PromptPart | src/mcp.rs:260-273 | resource links give no part; all other content a finished part |
| Mcp.PromptMessages | src/mcp.rs:253-281 | one single-part message per supported prompt message |
| Mcp.FindPrompt | src/mcp.rs:245-249 | the first listed prompt with the name, present exactly when one is listed |
| Mcp.PromptOf | src/mcp.rs:244-281 | a failed listing is an MCP error, an unlisted name PromptNotFound; a listed name is requested with the object arguments and its supported messages returned, or the request's failure as an MCP error |
| Mcp.PromptLookup | src/mcp.rs:244-251 | an unknown name is PromptNotFound, and the lookup is never refused for the id |
| Mcp.Serve | src/mcp.rs:102-283 | one connection offered as a server: its three listings tagged with its id, tool calls shaped, prompt and resource requests checked against its id, and named prompts looked up on it |
| Mcp.GatherLoop | src/mcp.rs:313-320 | the listing loop gives the gathered listing |
| Mcp.GatherSpec | src/mcp.rs:313-320 | fails exactly when a listing fails, with the first failure; otherwise the listings' items joined end to end in server order |
| Mcp.RouteCallLoop | src/mcp.rs:322-330 | the routing loop gives the routed call |
| Mcp.CallGoesToFirstClaimer | src/mcp.rs:322-330 | a call goes to the first server listing the tool, or is ToolNotFound |
| Mcp.RouteGetPromptLoop | src/mcp.rs:341-354 | the prompt routing loop gives the routed result |
| Mcp.RouteReadLoop | src/mcp.rs:365-377 | the resource routing loop gives the routed result |
| Mcp.PromptReachesItsServer | src/mcp.rs:341-354 | a prompt reaches the server whose id it carries, or is ServerNotFound |
| Mcp.ReadSkipsOnlyMismatches | src/mcp.rs:365-377 | only servers reporting an id mismatch are skipped; any other answer is returned |
| Mcp.Combine | src/mcp.rs:312-388 | several servers offered as one: all three listings gathered, tool calls and named prompts routed to the first server listing the name, prompt and resource requests routed past id mismatches |
| Mcp.ResourceParts | src/mcp.rs:401-403 | one part per content item, in order |
| Mcp.AttachToMessage | src/mcp.rs:397-407 | every resource read in order and its parts appended, or the first read error |
| Mcp.AttachToFirst | src/mcp.rs:410-419 | no messages stay none; otherwise only the first message gains the parts |
| Mcp.AttachTouchesOnlyFirst | src/mcp.rs:410-419 | the first message keeps its role and parts as a prefix, the others are unchanged |
| Agent.New | src/agent.rs:44-50 | ten rounds and no server |
| Agent.WithServer | src/agent.rs:53-56 | sets the server and keeps the bound |
| Agent.WithMaxIterations | src/agent.rs:59-62 | sets the bound and keeps the server |
| Agent.ToolValues | src/agent.rs:95 | the listed tools without their server tags |
| Agent.ChatCatalogue | src/agent.rs:93-105 | no tools without a server; a listing failure is a provider error |
| Agent.StreamCatalogue | src/agent.rs:220-230 | a listing failure gives no tools; otherwise as in the chat |
| Agent.ToolResult | src/agent.rs:142-161 | a failed call becomes a finished error response with the call's id and the tool's name; a result that is not a function response passes through |
| Agent.ToolResultAnswersTheCall | src/agent.rs:142-161 | a failure and a function response both carry the call's id; a failure is finished, named after the tool and without parts; a response keeps the server's payload and parts |
| Agent.RepliesAnswerEachCall | src/agent.rs:122-166 | with a server, one user message per call, in order, answering it |
| Agent.RepliesNeedAServer | src/agent.rs:135-137 | without a server a call is a configuration error |
| Agent.ExpandWithoutCalls | src/agent.rs:118-168 | a round without calls is passed on unchanged |
| Agent.NoCallsNoReplies | src/agent.rs:122-130 | parts without calls get no answers |
| Agent.ExpandWithServer | src/agent.rs:118-168 | with a server a round never fails and yields one message per message plus one per call |
| Agent.AnswerCalls | src/agent.rs:122-166 | pushes each answer to history and output, or stops at the error |
| Agent.ExpandOne | src/agent.rs:118-166 | one message is pushed to history and output followed by the answers to its calls, or the first error; it reports whether the message held a call |
| Agent.CallTotalCounts | src/agent.rs:115-130 | a round holds a call exactly when its number of calls is positive |
| Agent.ExpandRound | src/agent.rs:118-168 | pushes each message followed by its answers to history and output |
| Agent.ChatRoundStep | src/agent.rs:107-175 | an expansion error ends the chat; otherwise output and usage grow, and the chat stops exactly when the round has no call |
| Agent.RunChat | src/agent.rs:78-185 | the chat loop gives the specification's result |
| Agent.ChatStopsWithoutCalls | src/agent.rs:170-174 | a round without calls returns the output gathered so far |
| Agent.ChatExhaustsTheBound | src/agent.rs:177-184 | calls in every round end in the max-iterations error |
| Agent.ChatMakesAtMostBoundRequests | src/agent.rs:107-111 | the transport is read only in rounds below the bound |
| Agent.ChatResultExtends | src/agent.rs:112-120 | the result starts with the output gathered before and never lowers a present usage counter |
| Agent.ChatWithoutRounds | src/agent.rs:107-184 | a zero bound sends nothing: a catalogue failure, else the max-iterations error |
| Agent.Snap | src/agent.rs:250-255 | a snapshot is the pre-round messages then the latest response's, with the pre-round usage plus the latest |
| Agent.RoundOutcome | src/agent.rs:245-258 | one snapshot per streamed response up to the first error |
| Agent.StreamRoundEnds | src/agent.rs:269-316 | a failed stream, or a last message without finished calls, ends the streamed chat |
| Agent.StreamRoundContinues | src/agent.rs:262-312 | otherwise the answers are one user message pushed to history and output, then yielded |
| Agent.AbsorbStream | src/agent.rs:242-258 | truncate-then-extend gives the round's snapshots |
| Agent.PushNew | src/agent.rs:262-267 | the history gains only the round's new messages |
| Agent.AnswerFinishedCalls | src/agent.rs:273-305 | only finished calls of the last message are run |
| Agent.StreamRound | src/agent.rs:232-317 | one streamed round gives the specification's continuation |
| Agent.RunChatStream | src/agent.rs:199-327 | the streamed chat loop gives the specification's snapshots and error |
| Agent.StreamAnswersFinishedCalls | src/agent.rs:273-305 | the streamed chat answers exactly the calls the chat would once pending calls are dropped |
| Agent.StreamSnapshotsExtend | src/agent.rs:242-257 | every snapshot keeps the messages gathered before |
| Agent.StreamMakesAtMostBoundRequests | src/agent.rs:232-239 | the transport is read only in rounds below the bound |
| Agent.StreamErrorEndsTheChat | src/agent.rs:245-246 | a failed stream ends the streamed chat with that error |
| LegacyModel.RoleOf | src/providers/gemini.rs:138 | text and reasoning carry their role; calls are the assistant's, responses the user's |
| LegacyGemini.FinishFamilies | src/providers/gemini.rs:481-500 | stop and other give Stop, max tokens OutputTokens, the safety family ContentFilter, the tool family ToolCalls; never PromptTokens, Error or Unfinished |
| LegacyGemini.RoleFor | src/providers/gemini.rs:126-133 | user for User, model for Assistant |
| LegacyGemini.UsageOf | src/providers/gemini.rs:517-527 | the prompt count, and candidates plus thoughts with absent counts as zero |
| LegacyGemini.TurnOf | src/providers/gemini.rs:135-167 | one content entry with exactly one part; reasoning is marked as a thought |
| LegacyGemini.MessageOf | src/providers/gemini.rs:169-201 | a thought becomes reasoning without signature or summary, other text becomes text, both from the assistant |
| LegacyGemini.SentPartComesBack | src/providers/gemini.rs:135-201 | a message comes back from its own part exactly when it is representable |
| LegacyGemini.AllPartsCount | src/providers/gemini.rs:210-213 | the flattened parts are as many as the candidates hold together |
| LegacyGemini.FinishOf | src/providers/gemini.rs:205-209 | the last candidate's reason, or Stop |
| LegacyGemini.ToResponse | src/providers/gemini.rs:203-221 | one message per part of every candidate, the usage when reported, the last candidate's reason |
| LegacyGemini.SingleCandidate | src/providers/gemini.rs:203-221 | a single candidate's messages are its parts |
| LegacyGemini.EventChunks | src/providers/gemini.rs:56-89 | data chunks for all parts in order, then the usage if present, then the finish only with a reason; a failure is one error |
| LegacyGemini.StreamErrorsAreCounted | src/providers/gemini.rs:56-89 | the stream holds exactly one error per failed event |
| LegacyGemini.BuildRequest | src/providers/gemini.rs:106-124 | one entry per message, in order, each the message's own content entry, and a thinking configuration following the reasoning option with no budget |
| LegacyGemini.SentMessagesComeBack | src/providers/gemini.rs:106-201 | each entry of a request reads back as the message it was built from exactly when that message is representable |
| LegacyOpenAi.FinishReasons | src/providers/openai.rs:431-440 | prompt-token, output-token and content-filter incompletions map to their own reasons, any other to Stop; never ToolCalls, Error or Unfinished |
| LegacyOpenAi.UsageOf | src/providers/openai.rs:463-470 | input tokens are the prompt count, output tokens the completion count |
| LegacyOpenAi.ItemFor | src/providers/openai.rs:271-315 | user text is input text, assistant text output text, reasoning a summary and content, calls an empty assistant text |
| LegacyOpenAi.MessageFor | src/providers/openai.rs:317-342 | texts joined by a blank line; reasoning's summary absent exactly when the joined summary is empty |
| LegacyOpenAi.JoinIsEmpty | src/providers/openai.rs:336-337 | a join is empty exactly when it has at most one entry and that entry is empty |
| LegacyOpenAi.SummaryDropped | src/providers/openai.rs:331-339 | a summary is dropped exactly when its at most one entry is empty |
| LegacyOpenAi.TextComesBack | src/providers/openai.rs:271-342 | text goes out and comes back unchanged |
| LegacyOpenAi.ReasoningComesBack | src/providers/openai.rs:271-342 | reasoning comes back unchanged exactly when it is the assistant's, unsigned, and its summary is absent or non-empty |
| LegacyOpenAi.CallsAreBlanked | src/providers/openai.rs:303-313 | calls and responses come back as an empty assistant text |
| LegacyOpenAi.ToResponse | src/providers/openai.rs:344-358 | one message per item, the usage when reported, the incompletion reason or Stop |
| LegacyOpenAi.EventChunks | src/providers/openai.rs:58-97 | a delta is one data chunk, a terminal response its usage then its finish, other events nothing |
| LegacyOpenAi.OneFinishPerTerminalEvent | src/providers/openai.rs:58-97 | exactly one finish chunk per completed or incomplete response |
| LegacyOpenAi.BuildRequest | src/providers/openai.rs:251-268 | the named model or `gpt-5`, one item per message, no stream flag |
| LegacyOpenAi.BuildStreamRequest | src/providers/openai.rs:225-226 | the same body asking for a stream |

## Left out

- HTTP: `build_request`, `request`, `request_stream`, `handle_error_response`, headers, URLs, the "Model must be specified" configuration check and `src/http.rs` are transport I/O. The request builders take the model name as given.
- `src/client.rs` is not part of this model beyond the `ClientError` datatype; its traits carry no behaviour.
- `src/options.rs` is not part of this model: each request builder takes a record with only the options it reads.
- Floating-point sampling options (`temperature`, `top_p`) are passed through untouched and are not modelled.
- Token counters are unbounded naturals, so `u32` overflow in usage addition and in Gemini's candidates-plus-thoughts sum is not modelled.
- serde deserialisation of provider events, JSON parsing and serialisation, base64 and UTF-8 decoding are parameters of which nothing is required.
- A chunk of the byte stream that splits a UTF-8 sequence is modelled as an invalid chunk (`ByteChunk` without text).
- Async streams, cancellation and concurrency become loops over finite sequences; the transports are oracles indexed by round.
- The rmcp runtime and the random server ids are replaced by `Connection` records of oracles whose failures are strings.
- Tracing and logging calls are not modelled.
- JSON numbers are integers only (`Model.Json`); floating-point values inside tool arguments and schemas are not modelled.
- Gemini's `safety_settings` are passed through untouched and are not modelled.
- Gemini's total token count, OpenAI's pass-through provider options and Anthropic's cache-control, tool-choice, metadata and stop-sequence settings are not modelled.
- `Usage`'s `add_assign` is the assignment of `Model.Add`; the agent loops use it that way.
- `Mcp.RoutePrompt` and the multi-server `list_prompts`/`list_resources` reuse `Gather` and the routing shape of `RouteCall`; they have no loop method of their own.
- Anthropic.Decode: the stream decoder models the code as written, with block indices used as part positions; the corrected translation (`Anthropic.ApplyIndexed`) is stated and proved for single events only.
- `examples/*.rs`, `src/lib.rs`, `src/providers.rs` and `src/stream.rs` are demos and re-exports.

## Findings

| source | as written | input that shows it | evidently intended | confidence | as-written member | corrected member |
|---|---|---|---|---|---|---|
| src/api/anthropic.rs:241-287 | the provider's content-block index is used as the position in the parts, but blocks of kinds the decoder does not decode push no part | `content_block_start` 0 `redacted_thinking`, `content_block_start` 1 `text ""`, `content_block_delta` 1 `text_delta "hi"`, `content_block_stop` 1: the text part stays `""` and unfinished | every delta and stop reaches the part its own block started | high, not executed | Anthropic.RedactedThinkingShiftsIndices | Anthropic.IndexedRedactedThinking |
