/**
 The two readers of server-sent events: the live relay's `SSEParser` (internal/runtime/streaming.go)
 and the capture path's `parseSSEChunks` (internal/proxy/capture.go). Events and fields are those of
 the WHATWG HTML Living Standard, section 9.2.5. A `char` stands for one byte.
 */
module Sse {
  import opened Wrappers

  // ---------------------------------------------------------------- text

  /** The ASCII white space of Go's TrimSpace. */
  predicate IsSpace(c: char) {
    c == ' ' || c == '\t' || c == '\n' || c == '\r' || c == '\U{B}' || c == '\U{C}'
  }

  function TrimLeft(s: string): string {
    if s != "" && IsSpace(s[0]) then TrimLeft(s[1..]) else s
  }

  function TrimRight(s: string): string {
    if s != "" && IsSpace(s[|s| - 1]) then TrimRight(s[..|s| - 1]) else s
  }

  function Trim(s: string): string {
    TrimRight(TrimLeft(s))
  }

  function TrimLineEnd(s: string): string {
    if s != "" && (s[|s| - 1] == '\n' || s[|s| - 1] == '\r') then TrimLineEnd(s[..|s| - 1]) else s
  }

  function FirstNewline(s: string): (n: nat)
    ensures n <= |s| && '\n' !in s[..n] && (n < |s| ==> s[n] == '\n')
  {
    if s == "" || s[0] == '\n' then 0 else 1 + FirstNewline(s[1..])
  }

  /** bytes.Split on a newline. */
  function SplitLines(s: string): seq<string>
    decreases |s|
  {
    var n := FirstNewline(s);
    if n == |s| then [s] else [s[..n]] + SplitLines(s[n + 1..])
  }

  /** Where the first pair of newlines starts, or the end. */
  function FirstBlank(s: string): (n: nat)
    ensures n <= |s| && (n < |s| ==> n + 2 <= |s|)
  {
    if |s| < 2 then |s| else if s[0] == '\n' && s[1] == '\n' then 0 else 1 + FirstBlank(s[1..])
  }

  /** bytes.Split on a pair of newlines. */
  function SplitEvents(s: string): seq<string>
    decreases |s|
  {
    var n := FirstBlank(s);
    if n == |s| then [s] else [s[..n]] + SplitEvents(s[n + 2..])
  }

  // ---------------------------------------------------------------- the live parser

  const MAX_LINE := 0x10_0000
  const BUFFER := 0x1_0000

  datatype Outcome = Payload(data: string) | EndOfStream | LineTooLarge

  /** What one line, with its ending, yields. */
  function Interpret(line: string): Option<string> {
    var text := TrimLineEnd(line);
    if text == "" || text[0] == ':' then None
    else if "data:" <= text then Some(Trim(text[5..]))
    else if text[0] == '{' then Some(text)
    else None
  }

  /** The next line, with its newline if there is one. */
  function NextLine(rest: string): (line: string)
    ensures line <= rest && (rest != "" ==> line != "")
  {
    var n := FirstNewline(rest);
    if n < |rest| then rest[..n + 1] else rest
  }

  /** What `Next` returns on the unread bytes, and what it leaves unread. */
  function NextOf(rest: string): (r: (Outcome, string))
    ensures r.0.Payload? ==> |r.1| < |rest|
    decreases |rest|
  {
    var line := NextLine(rest);
    if rest == "" then (EndOfStream, "")
    else if |line| > MAX_LINE then (LineTooLarge, rest)
    else match Interpret(line)
      case Some(data) => (Payload(data), rest[|line|..])
      case None => NextOf(rest[|line|..])
  }

  /** All payloads, and how the stream ends. */
  function Payloads(rest: string): (seq<string>, Outcome)
    decreases |rest|
  {
    var (o, left) := NextOf(rest);
    if !o.Payload? then ([], o)
    else
      var (more, end) := Payloads(left);
      ([o.data] + more, end)
  }

  datatype SliceEnd = Newline | BufferFull | AtEnd

  class SSEParser {
    var rest: string  // bytes not read yet

    constructor (stream: string)
      ensures rest == stream
    {
      rest := stream;
    }

    /** bufio's ReadSlice: up to a newline, a full buffer, or the end. */
    method ReadSlice() returns (chunk: string, end: SliceEnd)
      modifies this
      ensures old(rest) == chunk + rest
      ensures end == Newline ==> chunk == NextLine(old(rest)) && '\n' in chunk
      ensures end == BufferFull ==> |chunk| == BUFFER && '\n' !in chunk
      ensures end == AtEnd ==> rest == "" && '\n' !in chunk
    {
      var n := FirstNewline(rest);
      if n < |rest| && n < BUFFER {
        chunk, rest, end := rest[..n + 1], rest[n + 1..], Newline;
      } else if |rest| >= BUFFER {
        assert '\n' !in rest[..BUFFER] by { assert rest[..n][..BUFFER] == rest[..BUFFER]; }
        chunk, rest, end := rest[..BUFFER], rest[BUFFER..], BufferFull;
      } else {
        assert rest[..n] == rest;
        chunk, rest, end := rest, "", AtEnd;
      }
    }

    /** One line, gathered slice by slice; refused as soon as it exceeds the bound. */
    method ReadBoundedLine(max: nat) returns (line: string, tooLarge: bool, eof: bool)
      modifies this
      ensures tooLarge <==> |NextLine(old(rest))| > max
      ensures !tooLarge ==> line == NextLine(old(rest)) && rest == old(rest)[|line|..]
      ensures !tooLarge ==> (eof <==> '\n' !in line)
    {
      line := "";
      while true
        invariant old(rest) == line + rest && '\n' !in line && |line| <= max
        decreases |rest|
      {
        var chunk, end := ReadSlice();
        AfterSlice(line, chunk, rest);
        line := line + chunk;
        if |line| > max {
          return line, true, false;
        }
        if end == Newline {
          return line, false, false;
        }
        if end == AtEnd {
          return line, false, true;
        }
      }
    }

    method Next() returns (o: Outcome)
      modifies this
      ensures o == NextOf(old(rest)).0
      ensures !o.LineTooLarge? ==> rest == NextOf(old(rest)).1
    {
      while true
        invariant NextOf(rest) == NextOf(old(rest))
        decreases |rest|
      {
        var line, tooLarge, eof := ReadBoundedLine(MAX_LINE);
        if tooLarge {
          return LineTooLarge;
        }
        if eof && line == "" {
          return EndOfStream;
        }
        var text := TrimLineEnd(line);
        if text == "" || text[0] == ':' {
          continue;
        }
        if "data:" <= text {
          return Payload(Trim(text[5..]));
        }
        if text[0] == '{' {
          return Payload(text);
        }
      }
    }
  }

  /** A slice either ends the line read so far or is part of it. */
  lemma AfterSlice(line: string, chunk: string, rest: string)
    requires '\n' !in line
    ensures line + (chunk + rest) == line + chunk + rest
    ensures chunk == NextLine(chunk + rest) ==> NextLine(line + chunk + rest) == line + chunk
    ensures '\n' !in chunk ==> NextLine(line + chunk + rest) == line + chunk + NextLine(rest)
  {
    assert line + (chunk + rest) == line + chunk + rest;
    if '\n' !in chunk {
      NewlineAfter(line + chunk, rest);
    } else {
      NewlineAfter(line, chunk + rest);
    }
    if chunk == NextLine(chunk + rest) {
      NewlineAfter(line, chunk + rest);
    }
  }

  /** A line read so far, with no newline, goes on with the line of what follows. */
  lemma {:induction false} NewlineAfter(front: string, back: string)
    requires '\n' !in front
    ensures FirstNewline(front + back) == |front| + FirstNewline(back)
    ensures NextLine(front + back) == front + NextLine(back)
  {
    if front == "" {
      assert front + back == back;
    } else {
      assert (front + back)[1..] == front[1..] + back;
      NewlineAfter(front[1..], back);
    }
  }

  // ---------------------------------------------------------------- the capture path

  datatype StreamChunk = StreamChunk(eventType: string, data: string)

  datatype Fields = Fields(eventType: string, dataLine: Option<string>)

  /** TrimSpace of blank bytes is nil, which the source takes for no data line. */
  function DataField(line: string): Option<string>
    requires "data:" <= line
  {
    var data := Trim(line[5..]);
    if data == "" then None else Some(data)
  }

  function ReadField(f: Fields, line: string): Fields {
    if "event:" <= line then f.(eventType := Trim(line[6..]))
    else if "data:" <= line then f.(dataLine := DataField(line))
    else f
  }

  /** The last event line and the last data line win. */
  function ReadFields(lines: seq<string>): Fields {
    if lines == [] then Fields("", None) else ReadField(ReadFields(lines[..|lines| - 1]), lines[|lines| - 1])
  }

  function ChunkOf(f: Fields): seq<StreamChunk> {
    match f.dataLine
    case None => []
    case Some(data) => [if f.eventType != "" then StreamChunk(f.eventType, data) else StreamChunk("", "data: " + data)]
  }

  function EventChunk(event: string): seq<StreamChunk> {
    if Trim(event) == "" then [] else ChunkOf(ReadFields(SplitLines(Trim(event))))
  }

  function EventChunks(events: seq<string>): seq<StreamChunk> {
    if events == [] then [] else EventChunks(events[..|events| - 1]) + EventChunk(events[|events| - 1])
  }

  function Chunks(raw: string): seq<StreamChunk> {
    EventChunks(SplitEvents(raw))
  }

  /** The inner loop over an event's lines. */
  method ScanFields(lines: seq<string>) returns (eventType: string, dataLine: Option<string>)
    ensures Fields(eventType, dataLine) == ReadFields(lines)
  {
    eventType, dataLine := "", None;
    for j := 0 to |lines|
      invariant Fields(eventType, dataLine) == ReadFields(lines[..j])
    {
      assert lines[..j + 1][..j] == lines[..j];
      if "event:" <= lines[j] {
        eventType := Trim(lines[j][6..]);
      } else if "data:" <= lines[j] {
        dataLine := DataField(lines[j]);
      }
    }
    assert lines[..|lines|] == lines;
  }

  method ParseSSEChunks(raw: string) returns (chunks: seq<StreamChunk>)
    ensures chunks == Chunks(raw)
  {
    chunks := [];
    var events := SplitEvents(raw);
    for i := 0 to |events|
      invariant chunks == EventChunks(events[..i])
    {
      assert events[..i + 1][..i] == events[..i];
      var event := Trim(events[i]);
      if |event| == 0 {
        continue;
      }
      var eventType, dataLine := ScanFields(SplitLines(event));
      if dataLine == None {
        continue;
      }
      if eventType != "" {
        chunks := chunks + [StreamChunk(eventType, dataLine.value)];
      } else {
        chunks := chunks + [StreamChunk("", "data: " + dataLine.value)];
      }
    }
    assert events[..|events|] == events;
  }
}
