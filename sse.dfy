/** Server-Sent-Events line framing: the buffer loop that turns a byte stream
    into `data:` payloads, and the two string helpers it uses. */
module Sse {
  import opened Model

  /** The characters with the Unicode White_Space property, which `str::trim`
      removes: those up to the space, and those from U+0085 on. */
  const AsciiWhitespace: seq<char> := [' ', '\t', '\n', '\U{B}', '\U{C}', '\r']
  const OtherWhitespace: seq<char> := [
    '\U{85}', '\U{A0}', '\U{1680}',
    '\U{2000}', '\U{2001}', '\U{2002}', '\U{2003}', '\U{2004}', '\U{2005}', '\U{2006}',
    '\U{2007}', '\U{2008}', '\U{2009}', '\U{200A}',
    '\U{2028}', '\U{2029}', '\U{202F}', '\U{205F}', '\U{3000}']

  predicate Occurs(c: char, cs: seq<char>) {
    cs != [] && (cs[0] == c || Occurs(c, cs[1..]))
  }

  predicate IsWhitespace(c: char) {
    if c <= ' ' then Occurs(c, AsciiWhitespace) else c >= '\U{85}' && Occurs(c, OtherWhitespace)
  }

  lemma {:induction false} OccursIsIn(c: char, cs: seq<char>)
    ensures Occurs(c, cs) <==> c in cs
  {
    if cs != [] {
      OccursIsIn(c, cs[1..]);
      assert cs == [cs[0]] + cs[1..];
    }
  }

  /** The guards in `IsWhitespace` lose nothing: it is membership in either list. */
  lemma WhitespaceIsListed(c: char)
    ensures IsWhitespace(c) <==> c in AsciiWhitespace || c in OtherWhitespace
  {
    OccursIsIn(c, AsciiWhitespace);
    OccursIsIn(c, OtherWhitespace);
    assert forall k :: 0 <= k < |AsciiWhitespace| ==> AsciiWhitespace[k] <= ' ';
    assert forall k :: 0 <= k < |OtherWhitespace| ==> OtherWhitespace[k] >= '\U{85}';
  }

  /** The first position at or after `from` that is not whitespace. */
  function SkipWhitespace(s: string, from: nat): (r: nat)
    requires from <= |s|
    ensures from <= r <= |s|
    decreases |s| - from
  {
    if from < |s| && IsWhitespace(s[from]) then SkipWhitespace(s, from + 1) else from
  }

  /** The end of `s[lo..hi]` once its trailing whitespace is removed. */
  function SkipWhitespaceBack(s: string, lo: nat, hi: nat): (r: nat)
    requires lo <= hi <= |s|
    ensures lo <= r <= hi
    decreases hi
  {
    if lo < hi && IsWhitespace(s[hi - 1]) then SkipWhitespaceBack(s, lo, hi - 1) else hi
  }

  /** `str::trim`: the string without leading and trailing whitespace. */
  function Trim(s: string): (r: string)
    ensures |r| <= |s|
  {
    var a := SkipWhitespace(s, 0);
    s[a..SkipWhitespaceBack(s, a, |s|)]
  }

  lemma {:induction false} SkipWhitespaceSpec(s: string, from: nat)
    requires from <= |s|
    ensures var r := SkipWhitespace(s, from);
            && (forall i :: from <= i < r ==> IsWhitespace(s[i]))
            && (r < |s| ==> !IsWhitespace(s[r]))
    decreases |s| - from
  {
    if from < |s| && IsWhitespace(s[from]) {
      SkipWhitespaceSpec(s, from + 1);
    }
  }

  lemma {:induction false} SkipWhitespaceBackSpec(s: string, lo: nat, hi: nat)
    requires lo <= hi <= |s|
    ensures var r := SkipWhitespaceBack(s, lo, hi);
            && (forall i :: r <= i < hi ==> IsWhitespace(s[i]))
            && (r > lo ==> !IsWhitespace(s[r - 1]))
    decreases hi
  {
    if lo < hi && IsWhitespace(s[hi - 1]) {
      SkipWhitespaceBackSpec(s, lo, hi - 1);
    }
  }

  /** The trimmed string is a slice of the input with only whitespace cut on
      either side, and it neither starts nor ends with whitespace. */
  lemma TrimSpec(s: string)
    ensures exists a, b {:trigger s[a..b]} :: 0 <= a <= b <= |s| && Trim(s) == s[a..b]
              && (forall i :: 0 <= i < a ==> IsWhitespace(s[i]))
              && (forall i :: b <= i < |s| ==> IsWhitespace(s[i]))
    ensures Trim(s) == [] || (!IsWhitespace(Trim(s)[0]) && !IsWhitespace(Trim(s)[|Trim(s)| - 1]))
  {
    var a := SkipWhitespace(s, 0);
    var b := SkipWhitespaceBack(s, a, |s|);
    SkipWhitespaceSpec(s, 0);
    SkipWhitespaceBackSpec(s, a, |s|);
    assert Trim(s) == s[a..b];
  }

  const DataPrefix: string := "data: "
  const DoneMarker: string := "[DONE]"

  /** The trimmed data of a line that starts with `data: `, and nothing otherwise. */
  function ParseSseLine(line: string): (r: Option<string>)
    ensures r.Some? <==> |line| >= |DataPrefix| && line[..|DataPrefix|] == DataPrefix
    ensures r.Some? ==> r.value == Trim(line[|DataPrefix|..])
  {
    if |line| >= |DataPrefix| && line[..|DataPrefix|] == DataPrefix then Some(Trim(line[|DataPrefix|..])) else None
  }

  function IsDoneMarker(data: string): (b: bool)
    ensures b <==> data == DoneMarker
  {
    data == DoneMarker
  }

  /** The data-line cases of the `test_parse_sse_line` unit test. */
  lemma ParseSseLineKeepsData()
    ensures ParseSseLine("data: hello") == Some("hello")
  {
    var line := "data: hello";
    assert line[..6] == DataPrefix;
    var a := "hello";
    assert line[6..] == a;
    assert SkipWhitespace(a, 0) == 0;
    assert SkipWhitespaceBack(a, 0, 5) == 5;
    assert a[0..5] == a;
  }

  lemma ParseSseLineTrimsData()
    ensures ParseSseLine("data:   spaces  ") == Some("spaces")
  {
    var line := "data:   spaces  ";
    assert line[..6] == DataPrefix;
    var a := "  spaces  ";
    assert line[6..] == a;
    assert a[2..8] == "spaces";
    assert SkipWhitespace(a, 0) == 2 by {
      assert a[0] == ' ' && a[1] == ' ' && a[2] == 's';
      assert IsWhitespace(' ') && !IsWhitespace('s');
      assert SkipWhitespace(a, 2) == 2;
      assert SkipWhitespace(a, 1) == 2;
    }
    assert SkipWhitespaceBack(a, 2, 10) == 8 by {
      assert a[9] == ' ' && a[8] == ' ' && a[7] == 's';
      assert IsWhitespace(' ') && !IsWhitespace('s');
      assert SkipWhitespaceBack(a, 2, 8) == 8;
      assert SkipWhitespaceBack(a, 2, 9) == 8;
    }
  }

  lemma ParseSseLineRejects()
    ensures ParseSseLine("invalid") == None
    ensures ParseSseLine("") == None
  {
    assert "invalid"[0] != DataPrefix[0];
  }

  lemma DoneMarkerExamples()
    ensures IsDoneMarker("[DONE]") && !IsDoneMarker("") && !IsDoneMarker("data")
  {
  }

  // ----- The reference framing of a whole text -----

  /** The position of the first newline at or after `from`. */
  function NewlineFrom(s: string, from: nat): (r: Option<nat>)
    requires from <= |s|
    ensures r.Some? ==> from <= r.value < |s| && s[r.value] == '\n'
    decreases |s| - from
  {
    if from == |s| then None
    else if s[from] == '\n' then Some(from)
    else NewlineFrom(s, from + 1)
  }

  /** The position of the first newline, as `str::find('\n')`. */
  function NewlineIndex(s: string): (r: Option<nat>)
    ensures r.Some? ==> r.value < |s| && s[r.value] == '\n'
  {
    NewlineFrom(s, 0)
  }

  lemma {:induction false} NewlineFromIsFirst(s: string, from: nat)
    requires from <= |s|
    ensures forall j :: from <= j < (if NewlineFrom(s, from).Some? then NewlineFrom(s, from).value else |s|) ==> s[j] != '\n'
    decreases |s| - from
  {
    if from < |s| && s[from] != '\n' {
      NewlineFromIsFirst(s, from + 1);
    }
  }

  /** The newline found is the first one, and there is none when nothing is found. */
  lemma NewlineIndexIsFirst(s: string)
    ensures NewlineIndex(s).Some? ==> forall j :: 0 <= j < NewlineIndex(s).value ==> s[j] != '\n'
    ensures NewlineIndex(s).None? ==> forall j :: 0 <= j < |s| ==> s[j] != '\n'
  {
    NewlineFromIsFirst(s, 0);
  }

  lemma {:induction false} NewlineFromExtend(s: string, t: string, from: nat)
    requires from <= |s| && NewlineFrom(s, from).Some?
    ensures NewlineFrom(s + t, from) == NewlineFrom(s, from)
    decreases |s| - from
  {
    assert (s + t)[from] == s[from];
    if s[from] != '\n' {
      NewlineFromExtend(s, t, from + 1);
    }
  }

  lemma NewlineIndexExtend(s: string, t: string)
    requires NewlineIndex(s).Some?
    ensures NewlineIndex(s + t) == NewlineIndex(s)
  {
    NewlineFromExtend(s, t, 0);
  }

  lemma {:induction false} NewlineFromLine(line: string, rest: string, from: nat)
    requires from <= |line|
    requires forall j :: 0 <= j < |line| ==> line[j] != '\n'
    ensures NewlineFrom(line + "\n" + rest, from) == Some(|line|)
    decreases |line| - from
  {
    var s := line + "\n" + rest;
    if from < |line| {
      assert s[from] == line[from];
      NewlineFromLine(line, rest, from + 1);
    } else {
      assert s[from] == '\n';
    }
  }

  lemma NewlineIndexOfLine(line: string, rest: string)
    requires forall j :: 0 <= j < |line| ==> line[j] != '\n'
    ensures NewlineIndex(line + "\n" + rest) == Some(|line|)
  {
    NewlineFromLine(line, rest, 0);
  }

  /** What one line contributes: nothing when it is blank after trimming or
      lacks the data prefix, otherwise its data. */
  function LinePayload(line: string): Option<string> {
    var l := Trim(line);
    if l == "" then None else ParseSseLine(l)
  }

  datatype Framing = Framing(payloads: seq<string>, done: bool)

  /** What a complete line does to the framing of the text after it. */
  function FrameLine(line: string, rest: Framing): Framing {
    match LinePayload(line)
    case None => rest
    case Some(d) => if IsDoneMarker(d) then Framing([], true) else Framing([d] + rest.payloads, rest.done)
  }

  /** What the unterminated last line contributes. */
  function FrameTail(tail: string): Framing {
    match LinePayload(tail)
    case Some(d) => Framing(if IsDoneMarker(d) then [] else [d], false)
    case None => Framing([], false)
  }

  /** The payloads of a text, in order: one per complete line that carries
      data, stopping (with `done`) at a `[DONE]` line, and then the payload of
      the unterminated last line, if any. */
  function FrameText(t: string): Framing
    decreases |t|
  {
    match NewlineIndex(t)
    case None => FrameTail(t)
    case Some(p) => FrameLine(t[..p], FrameText(t[p + 1..]))
  }

  /** The framing of a text, then of more text, unless the first ended the stream. */
  function Then(first: Framing, second: Framing): Framing {
    if first.done then first else Framing(first.payloads + second.payloads, second.done)
  }

  /** Splitting off the first complete line of a buffer, whatever follows it. */
  lemma FrameUnfold(buffer: string, rest: string)
    requires NewlineIndex(buffer).Some?
    ensures var p := NewlineIndex(buffer).value;
            FrameText(buffer + rest) == FrameLine(buffer[..p], FrameText(buffer[p + 1..] + rest))
  {
    var p := NewlineIndex(buffer).value;
    var whole := buffer + rest;
    NewlineIndexExtend(buffer, rest);
    assert NewlineIndex(whole) == Some(p);
    assert FrameText(whole) == FrameLine(whole[..p], FrameText(whole[p + 1..]));
    assert whole[..p] == buffer[..p];
    assert whole[p + 1..] == buffer[p + 1..] + rest;
  }

  lemma FrameLineThen(line: string, first: Framing, second: Framing)
    ensures FrameLine(line, Then(first, second)) == Then(FrameLine(line, first), second)
  {
    match LinePayload(line)
    case None =>
    case Some(d) =>
      if !IsDoneMarker(d) && !first.done {
        assert [d] + (first.payloads + second.payloads) == ([d] + first.payloads) + second.payloads;
      }
  }

  /** A complete line without data contributes nothing. */
  lemma FrameSkipsLine(line: string, rest: string)
    requires forall j :: 0 <= j < |line| ==> line[j] != '\n'
    requires LinePayload(line).None?
    ensures FrameText(line + "\n" + rest) == FrameText(rest)
  {
    NewlineIndexOfLine(line, rest);
    var s := line + "\n" + rest;
    assert s[..|line|] == line && s[|line| + 1..] == rest;
  }

  /** A complete data line contributes its data, ahead of what follows. */
  lemma FrameDataLine(line: string, rest: string)
    requires forall j :: 0 <= j < |line| ==> line[j] != '\n'
    requires LinePayload(line).Some? && !IsDoneMarker(LinePayload(line).value)
    ensures FrameText(line + "\n" + rest).payloads == [LinePayload(line).value] + FrameText(rest).payloads
  {
    NewlineIndexOfLine(line, rest);
    var s := line + "\n" + rest;
    assert s[..|line|] == line && s[|line| + 1..] == rest;
  }

  /** Nothing after a complete `[DONE]` line is ever emitted. */
  lemma FrameStopsAtDone(line: string, rest: string)
    requires forall j :: 0 <= j < |line| ==> line[j] != '\n'
    requires LinePayload(line) == Some(DoneMarker)
    ensures FrameText(line + "\n" + rest) == Framing([], true)
  {
    NewlineIndexOfLine(line, rest);
    var s := line + "\n" + rest;
    assert s[..|line|] == line;
  }

  /** Framing a text that ends in a newline, then more text, is framing the
      two parts one after the other, unless the first part already ended the
      stream: chunk boundaries do not matter once a line is complete. */
  lemma {:induction false} FrameAppend(a: string, b: string)
    requires |a| > 0 && a[|a| - 1] == '\n'
    ensures FrameText(a + b) == Then(FrameText(a), FrameText(b))
    decreases |a|
  {
    NewlineIndexIsFirst(a);
    var p := NewlineIndex(a).value;
    var line := a[..p];
    var tail := a[p + 1..];
    FrameUnfold(a, b);
    assert FrameText(a + b) == FrameLine(line, FrameText(tail + b));
    assert FrameText(a) == FrameLine(line, FrameText(tail));
    if p + 1 == |a| {
      assert tail + b == b;
      assert NewlineIndex(tail).None?;
      assert FrameText(tail) == FrameTail(tail);
      assert FrameTail(tail) == Framing([], false) by {
        assert Trim(tail) == [];
      }
      assert Then(Framing([], false), FrameText(b)) == FrameText(b);
      FrameLineThen(line, Framing([], false), FrameText(b));
    } else {
      FrameAppend(tail, b);
      FrameLineThen(line, FrameText(tail), FrameText(b));
    }
  }

  // ----- The buffer loop -----

  /** One item of the byte stream: a chunk (absent text: not valid UTF-8) or
      a transport error. */
  datatype ByteChunk = Chunk(text: Option<string>) | TransportError(error: ClientError)

  /** The text a chunk adds to the buffer: none for an invalid chunk or an error. */
  function ChunkText(c: ByteChunk): string {
    if c.Chunk? && c.text.Some? then c.text.value else ""
  }

  /** The valid text of the chunks, concatenated. */
  function Text(chunks: seq<ByteChunk>): string {
    if chunks == [] then "" else ChunkText(chunks[0]) + Text(chunks[1..])
  }

  function ChunkErrors(chunks: seq<ByteChunk>): seq<ClientError> {
    if chunks == [] then []
    else ChunkErrors(chunks[..|chunks| - 1])
         + (if chunks[|chunks| - 1].TransportError? then [chunks[|chunks| - 1].error] else [])
  }

  function Payloads(items: seq<Result<string, ClientError>>): seq<string> {
    if items == [] then []
    else Payloads(items[..|items| - 1]) + (if items[|items| - 1].Ok? then [items[|items| - 1].value] else [])
  }

  function Errors(items: seq<Result<string, ClientError>>): seq<ClientError> {
    if items == [] then []
    else Errors(items[..|items| - 1]) + (if items[|items| - 1].Err? then [items[|items| - 1].error] else [])
  }

  lemma {:induction false} ChunkErrorsPrefix(chunks: seq<ByteChunk>, i: nat)
    requires i <= |chunks|
    ensures ChunkErrors(chunks[..i]) <= ChunkErrors(chunks)
    decreases |chunks| - i
  {
    if i < |chunks| {
      ChunkErrorsPrefix(chunks, i + 1);
      assert chunks[..i + 1][..i] == chunks[..i];
    } else {
      assert chunks[..i] == chunks;
    }
  }

  /** Reading chunk `i` moves its text from the unread input into the buffer. */
  lemma ReadChunk(chunks: seq<ByteChunk>, i: nat, buffer: string)
    requires i < |chunks|
    ensures buffer + Text(chunks[i..]) == (buffer + ChunkText(chunks[i])) + Text(chunks[i + 1..])
    ensures ChunkErrors(chunks[..i + 1]) ==
            ChunkErrors(chunks[..i]) + (if chunks[i].TransportError? then [chunks[i].error] else [])
  {
    assert chunks[i..][0] == chunks[i] && chunks[i..][1..] == chunks[i + 1..];
    assert chunks[..i + 1][..i] == chunks[..i];
  }

  lemma EmitItem(items: seq<Result<string, ClientError>>, x: Result<string, ClientError>)
    ensures Payloads(items + [x]) == Payloads(items) + (if x.Ok? then [x.value] else [])
    ensures Errors(items + [x]) == Errors(items) + (if x.Err? then [x.error] else [])
  {
    assert (items + [x])[..|items|] == items;
  }

  /** Emitting a payload moves it from the pending framing to the output. */
  lemma ThenEmit(out: seq<string>, d: string, rest: Framing)
    ensures Then(Framing(out, false), Framing([d] + rest.payloads, rest.done)) == Then(Framing(out + [d], false), rest)
  {
    assert out + ([d] + rest.payloads) == (out + [d]) + rest.payloads;
  }

  /** The inner line loop: drops complete lines until one carries data.
      `rest` is the text not yet read into the buffer. */
  method NextPayload(buffer: string, ghost rest: string) returns (remaining: string, payload: Option<string>, done: bool)
    ensures |remaining| <= |buffer|
    ensures done ==> FrameText(buffer + rest) == Framing([], true)
    ensures !done && payload.Some? ==>
              && |remaining| < |buffer| && !IsDoneMarker(payload.value)
              && var after := FrameText(remaining + rest);
                 FrameText(buffer + rest) == Framing([payload.value] + after.payloads, after.done)
    ensures !done && payload.None? ==>
              NewlineIndex(remaining).None? && FrameText(buffer + rest) == FrameText(remaining + rest)
  {
    remaining := buffer;
    while NewlineIndex(remaining).Some?
      invariant |remaining| <= |buffer|
      invariant FrameText(buffer + rest) == FrameText(remaining + rest)
      decreases |remaining|
    {
      var pos := NewlineIndex(remaining).value;
      FrameUnfold(remaining, rest);
      var line := Trim(remaining[..pos]);
      remaining := remaining[pos + 1..];
      if line == "" {
        continue;
      }
      match ParseSseLine(line)
      case Some(data) =>
        if IsDoneMarker(data) {
          return remaining, None, true;
        }
        return remaining, Some(data), false;
      case None =>
    }
    return remaining, None, false;
  }

  /** The unterminated last line, read once the byte stream has ended: its
      data, unless it is blank, lacks the prefix or is `[DONE]`. */
  method FlushTail(buffer: string) returns (payload: Option<string>)
    ensures FrameTail(buffer) == Framing(if payload.Some? then [payload.value] else [], false)
  {
    payload := None;
    if buffer != "" {
      var line := Trim(buffer);
      if line != "" {
        match ParseSseLine(line)
        case Some(data) =>
          if !IsDoneMarker(data) {
            payload := Some(data);
          }
        case None =>
      }
    }
  }

  /** The SSE stream over a byte stream: every transport error is passed on as
      an error item, and the data items are exactly the framing of the
      concatenated valid text. Errors after a `[DONE]` line may go unread. */
  method Frame(chunks: seq<ByteChunk>) returns (items: seq<Result<string, ClientError>>)
    ensures Payloads(items) == FrameText(Text(chunks)).payloads
    ensures Errors(items) <= ChunkErrors(chunks)
    ensures !FrameText(Text(chunks)).done ==> Errors(items) == ChunkErrors(chunks)
  {
    var i := 0;
    var buffer := "";
    var streamEnded := false;
    items := [];
    assert buffer + Text(chunks[0..]) == Text(chunks) by {
      assert chunks[0..] == chunks;
    }
    while true
      invariant 0 <= i <= |chunks|
      invariant streamEnded ==> i == |chunks|
      invariant FrameText(Text(chunks)) == Then(Framing(Payloads(items), false), FrameText(buffer + Text(chunks[i..])))
      invariant Errors(items) == ChunkErrors(chunks[..i])
      decreases |chunks| - i + (if streamEnded then 0 else 1), |buffer|
    {
      if !streamEnded {
        if i < |chunks| {
          ReadChunk(chunks, i, buffer);
          match chunks[i]
          case Chunk(t) =>
            buffer := buffer + ChunkText(chunks[i]);
            i := i + 1;
            assert FrameText(Text(chunks)) == Then(Framing(Payloads(items), false), FrameText(buffer + Text(chunks[i..])));
          case TransportError(e) =>
            assert buffer + "" == buffer;
            EmitItem(items, Err(e));
            assert Payloads(items + [Err(e)]) == Payloads(items);
            items := items + [Err(e)];
            i := i + 1;
            assert FrameText(Text(chunks)) == Then(Framing(Payloads(items), false), FrameText(buffer + Text(chunks[i..])));
            continue;
        } else {
          streamEnded := true;
        }
      }

      var next, payload, done := NextPayload(buffer, Text(chunks[i..]));
      if done {
        ChunkErrorsPrefix(chunks, i);
        return;
      }
      buffer := next;
      if payload.Some? {
        ThenEmit(Payloads(items), payload.value, FrameText(buffer + Text(chunks[i..])));
        EmitItem(items, Ok(payload.value));
        items := items + [Ok(payload.value)];
        continue;
      }

      if streamEnded {
        assert Text(chunks[i..]) == "" && buffer + "" == buffer;
        var last := FlushTail(buffer);
        if last.Some? {
          EmitItem(items, Ok(last.value));
          items := items + [Ok(last.value)];
        }
        assert chunks[..i] == chunks;
        return;
      }
    }
  }
}
