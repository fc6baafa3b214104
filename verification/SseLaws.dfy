/**
 On newline-framed streams the two readers see the same payloads, exactly when every event has at
 most one data line and it is not blank.
 */
module SseLaws {
  import opened Wrappers
  import opened Sse

  /** A field or comment line: no newline, no white space around it, within the live parser's bound. */
  predicate CleanLine(l: string) {
    l != "" && '\n' !in l && !IsSpace(l[0]) && !IsSpace(l[|l| - 1]) && |l| < MAX_LINE
  }

  predicate CleanFrame(f: seq<string>) {
    f != [] && forall l | l in f :: CleanLine(l)
  }

  /** An event on the wire: its lines, then an empty one. */
  function FrameText(f: seq<string>): string {
    if f == [] then "\n" else f[0] + "\n" + FrameText(f[1..])
  }

  function StreamText(frames: seq<seq<string>>): string {
    if frames == [] then "" else FrameText(frames[0]) + StreamText(frames[1..])
  }

  function LineData(l: string): seq<string> {
    match Interpret(l)
    case None => []
    case Some(data) => [data]
  }

  /** Everything the lines of an event carry as payload, in order. */
  function FrameData(f: seq<string>): seq<string> {
    if f == [] then [] else LineData(f[0]) + FrameData(f[1..])
  }

  function StreamData(frames: seq<seq<string>>): seq<string> {
    if frames == [] then [] else FrameData(frames[0]) + StreamData(frames[1..])
  }

  /** The chunks of a stream: per event, its last event name and its last data line. */
  function StreamChunks(frames: seq<seq<string>>): seq<StreamChunk> {
    if frames == [] then [] else ChunkOf(ReadFields(frames[0])) + StreamChunks(frames[1..])
  }

  // ---------------------------------------------------------------- the live parser

  lemma FirstLineIs(rest: string)
    ensures NextLine("\n" + rest) == "\n"
  {
    assert ("\n" + rest)[0] == '\n' && ("\n" + rest)[..1] == "\n";
  }

  lemma NextLineIs(l: string, rest: string)
    requires '\n' !in l
    ensures NextLine(l + "\n" + rest) == l + "\n" && (l + "\n" + rest)[|l| + 1..] == rest
  {
    assert l + "\n" + rest == l + ("\n" + rest);
    FirstLineIs(rest);
    NewlineAfter(l, "\n" + rest);
  }

  lemma LineEndGoes(l: string)
    requires CleanLine(l)
    ensures TrimLineEnd(l + "\n") == l && TrimLineEnd(l) == l
  {
    assert (l + "\n")[..|l|] == l;
  }

  lemma LineIsRead(l: string, rest: string)
    requires CleanLine(l)
    ensures NextLine(l + "\n" + rest) == l + "\n" && Interpret(l + "\n") == Interpret(l)
    ensures (l + "\n" + rest)[|l| + 1..] == rest
  {
    NextLineIs(l, rest);
    LineEndGoes(l);
  }

  function Prepend(data: seq<string>, p: (seq<string>, Outcome)): (seq<string>, Outcome) {
    (data + p.0, p.1)
  }

  lemma PrependTwice(a: seq<string>, b: seq<string>, p: (seq<string>, Outcome))
    ensures Prepend(a, Prepend(b, p)) == Prepend(a + b, p) && Prepend([], p) == p
  {
    assert a + (b + p.0) == a + b + p.0 && [] + p.0 == p.0;
  }

  lemma LineIsConsumed(l: string, rest: string)
    requires CleanLine(l)
    ensures Payloads(l + "\n" + rest) == Prepend(LineData(l), Payloads(rest))
  {
    LineIsRead(l, rest);
    PrependTwice([], [], Payloads(rest));
    match Interpret(l)
    case None =>
      assert NextOf(l + "\n" + rest) == NextOf(rest);
    case Some(data) =>
      assert NextOf(l + "\n" + rest) == (Payload(data), rest);
  }

  lemma BlankIsConsumed(rest: string)
    ensures Payloads("\n" + rest) == Payloads(rest)
  {
    assert NextLine("\n" + rest) == "\n" && ("\n" + rest)[1..] == rest;
    assert TrimLineEnd("\n") == "";
    assert NextOf("\n" + rest) == NextOf(rest);
  }

  lemma {:induction false} FrameIsConsumed(f: seq<string>, rest: string)
    requires forall l :: l in f ==> CleanLine(l)
    ensures Payloads(FrameText(f) + rest) == Prepend(FrameData(f), Payloads(rest))
  {
    if f == [] {
      BlankIsConsumed(rest);
      PrependTwice([], [], Payloads(rest));
    } else {
      var tail := FrameText(f[1..]) + rest;
      assert FrameText(f) + rest == f[0] + "\n" + tail;
      FrameIsConsumed(f[1..], rest);
      LineIsConsumed(f[0], tail);
      PrependTwice(LineData(f[0]), FrameData(f[1..]), Payloads(rest));
    }
  }

  /** Repeated `Next` yields every payload in order, then the end of the stream. */
  lemma {:induction false} LiveReads(frames: seq<seq<string>>)
    requires forall f :: f in frames ==> CleanFrame(f)
    ensures Payloads(StreamText(frames)) == (StreamData(frames), EndOfStream)
  {
    if frames != [] {
      LiveReads(frames[1..]);
      assert CleanFrame(frames[0]);
      FrameIsConsumed(frames[0], StreamText(frames[1..]));
    }
  }

  /** A line of more than a mebibyte, its newline included, ends the reading there; one of exactly that is read. */
  lemma LongLineStops(l: string, rest: string)
    requires '\n' !in l
    ensures |l| + 1 > 1048576 ==> Payloads(l + "\n" + rest) == ([], LineTooLarge)
    ensures |l| + 1 == 1048576 && Interpret(l + "\n") == None ==> Payloads(l + "\n" + rest) == Payloads(rest)
  {
    NextLineIs(l, rest);
    assert l + "\n" + rest != "";
    if |l| + 1 == 1048576 && Interpret(l + "\n") == None {
      assert NextOf(l + "\n" + rest) == NextOf(rest);
    }
  }

  // ---------------------------------------------------------------- white space

  const WHITE_SPACE := "\t\n\U{B}\U{C}\r "

  ghost predicate Blank(s: string) {
    forall c :: c in s ==> c in WHITE_SPACE
  }

  lemma SpaceExactly(c: char)
    ensures IsSpace(c) <==> c in WHITE_SPACE
  {
    assert WHITE_SPACE[0] == '\t' && WHITE_SPACE[1] == '\n' && WHITE_SPACE[2] == '\U{B}';
    assert WHITE_SPACE[3] == '\U{C}' && WHITE_SPACE[4] == '\r' && WHITE_SPACE[5] == ' ';
  }

  lemma {:induction false} LeftCut(s: string) returns (front: string)
    ensures s == front + TrimLeft(s) && Blank(front)
    ensures TrimLeft(s) == "" || TrimLeft(s)[0] !in WHITE_SPACE
  {
    front := "";
    if s != "" {
      SpaceExactly(s[0]);
      if IsSpace(s[0]) {
        var more := LeftCut(s[1..]);
        front := [s[0]] + more;
      }
    }
  }

  lemma {:induction false} RightCut(s: string) returns (back: string)
    ensures s == TrimRight(s) + back && Blank(back)
    ensures TrimRight(s) == "" || TrimRight(s)[|TrimRight(s)| - 1] !in WHITE_SPACE
  {
    back := "";
    if s != "" {
      SpaceExactly(s[|s| - 1]);
      if IsSpace(s[|s| - 1]) {
        var more := RightCut(s[..|s| - 1]);
        back := more + [s[|s| - 1]];
      }
    }
  }

  /** Trimming cuts the white space at both ends and nothing else. */
  lemma TrimCutsBlanks(s: string) returns (front: string, back: string)
    ensures s == front + Trim(s) + back && Blank(front) && Blank(back)
    ensures Trim(s) == "" || (Trim(s)[0] !in WHITE_SPACE && Trim(s)[|Trim(s)| - 1] !in WHITE_SPACE)
  {
    front := LeftCut(s);
    back := RightCut(TrimLeft(s));
    if Trim(s) != "" {
      assert Trim(s)[0] == TrimLeft(s)[0];
    }
  }

  // ---------------------------------------------------------------- the capture path

  function Body(f: seq<string>): string
    requires f != []
  {
    if |f| == 1 then f[0] else f[0] + "\n" + Body(f[1..])
  }

  lemma {:induction false} NoBlankInLine(l: string, t: string)
    requires '\n' !in l
    ensures FirstBlank(l + t) == |l| + FirstBlank(t)
  {
    if l == "" {
      assert l + t == t;
    } else {
      assert (l + t)[1..] == l[1..] + t;
      NoBlankInLine(l[1..], t);
    }
  }

  lemma {:induction false} BodyText(f: seq<string>)
    requires CleanFrame(f)
    ensures FrameText(f) == Body(f) + "\n\n"
    ensures Body(f) != "" && !IsSpace(Body(f)[0]) && !IsSpace(Body(f)[|Body(f)| - 1])
  {
    assert CleanLine(f[0]);
    if |f| == 1 {
      assert f[1..] == [];
      assert FrameText(f) == f[0] + "\n" + "\n";
    } else {
      BodyText(f[1..]);
    }
  }

  lemma {:induction false} BlankAfterBody(f: seq<string>, rest: string)
    requires CleanFrame(f)
    ensures FirstBlank(Body(f) + ("\n\n" + rest)) == |Body(f)|
  {
    assert CleanLine(f[0]);
    if |f| == 1 {
      NoBlankInLine(f[0], "\n\n" + rest);
    } else {
      var tail := Body(f[1..]) + ("\n\n" + rest);
      assert Body(f) + ("\n\n" + rest) == f[0] + ("\n" + tail);
      NoBlankInLine(f[0], "\n" + tail);
      BodyText(f[1..]);
      assert ("\n" + tail)[1..] == tail;
      BlankAfterBody(f[1..], rest);
    }
  }

  lemma SplitAfterLine(l: string, t: string)
    requires '\n' !in l
    ensures SplitLines(l + ("\n" + t)) == [l] + SplitLines(t)
  {
    NewlineAfter(l, "\n" + t);
    var s := l + ("\n" + t);
    assert s[..|l|] == l && s[|l| + 1..] == t;
  }

  lemma {:induction false} BodyLines(f: seq<string>)
    requires CleanFrame(f)
    ensures SplitLines(Body(f)) == f
  {
    assert CleanLine(f[0]);
    if |f| == 1 {
      NewlineAfter(f[0], "");
      assert f[0] + "" == f[0];
    } else {
      assert Body(f) == f[0] + ("\n" + Body(f[1..]));
      SplitAfterLine(f[0], Body(f[1..]));
      BodyLines(f[1..]);
    }
  }

  lemma BodyChunk(f: seq<string>)
    requires CleanFrame(f)
    ensures EventChunk(Body(f)) == ChunkOf(ReadFields(f))
  {
    BodyText(f);
    assert Trim(Body(f)) == Body(f);
    BodyLines(f);
  }

  lemma EventChunksOfSnoc(events: seq<string>, event: string)
    ensures EventChunks(events + [event]) == EventChunks(events) + EventChunk(event)
  {
    assert (events + [event])[..|events|] == events;
  }

  lemma Regroup<T>(a: seq<T>, b: seq<T>, c: seq<T>)
    ensures (a + b) + c == a + (b + c) && [] + a == a == a + []
  {
  }

  lemma {:induction false} EventChunksOfConcat(event: string, events: seq<string>)
    ensures EventChunks([event] + events) == EventChunk(event) + EventChunks(events)
  {
    if events == [] {
      assert [event] + events == [] + [event];
      EventChunksOfSnoc([], event);
      Regroup(EventChunk(event), [], []);
    } else {
      var init, last := events[..|events| - 1], events[|events| - 1];
      assert [event] + events == ([event] + init) + [last] && init + [last] == events;
      EventChunksOfConcat(event, init);
      EventChunksOfSnoc([event] + init, last);
      EventChunksOfSnoc(init, last);
      Regroup(EventChunk(event), EventChunks(init), EventChunk(last));
    }
  }

  /** The capture path cuts the same bytes into one chunk per event with data. */
  lemma {:induction false} CaptureReads(frames: seq<seq<string>>)
    requires forall f :: f in frames ==> CleanFrame(f)
    ensures Chunks(StreamText(frames)) == StreamChunks(frames)
  {
    if frames == [] {
      assert SplitEvents("") == [""] && [""][..0] == [];
      assert EventChunks([""]) == EventChunks([]) + EventChunk("");
    } else {
      var f, rest := frames[0], StreamText(frames[1..]);
      BodyText(f);
      var text := Body(f) + ("\n\n" + rest);
      assert StreamText(frames) == text;
      BlankAfterBody(f, rest);
      assert text[..|Body(f)|] == Body(f) && text[|Body(f)| + 2..] == rest;
      EventChunksOfConcat(Body(f), SplitEvents(rest));
      BodyChunk(f);
      CaptureReads(frames[1..]);
    }
  }

  // ---------------------------------------------------------------- agreement

  /** The payload inside a chunk, without the prefix it gets when the event has no name. */
  function ChunkPayload(c: StreamChunk): string {
    if c.eventType != "" || |c.data| < 6 then c.data else c.data[6..]
  }

  function ChunkPayloads(chunks: seq<StreamChunk>): seq<string> {
    if chunks == [] then [] else [ChunkPayload(chunks[0])] + ChunkPayloads(chunks[1..])
  }

  function FieldData(f: Fields): seq<string> {
    match f.dataLine
    case None => []
    case Some(data) => [data]
  }

  lemma {:induction false} ChunkPayloadsOfConcat(a: seq<StreamChunk>, b: seq<StreamChunk>)
    ensures ChunkPayloads(a + b) == ChunkPayloads(a) + ChunkPayloads(b)
  {
    if a == [] {
      assert a + b == b;
    } else {
      assert (a + b)[1..] == a[1..] + b;
      ChunkPayloadsOfConcat(a[1..], b);
    }
  }

  lemma FrameChunkPayload(f: seq<string>)
    ensures ChunkPayloads(ChunkOf(ReadFields(f))) == FieldData(ReadFields(f))
  {
    var chunks := ChunkOf(ReadFields(f));
    if chunks != [] {
      assert chunks[1..] == [];
      var data := ReadFields(f).dataLine.value;
      assert ("data: " + data)[6..] == data;
    }
  }

  lemma {:induction false} FrameDataOfSnoc(f: seq<string>, l: string)
    ensures FrameData(f + [l]) == FrameData(f) + LineData(l)
  {
    if f == [] {
      assert f + [l] == [l] && [l][1..] == [];
    } else {
      assert (f + [l])[1..] == f[1..] + [l];
      FrameDataOfSnoc(f[1..], l);
    }
  }

  /** At most one payload line, and it is a data line that is not blank. */
  predicate SinglePayload(f: seq<string>) {
    FrameData(f) == [] || (|FrameData(f)| == 1 && FrameData(f)[0] != "" && NoBrace(f))
  }

  /** No line is a bare JSON object, which only the live parser takes for a payload. */
  predicate NoBrace(f: seq<string>) {
    forall l | l in f :: l != "" && l[0] != '{'
  }

  lemma PrefixStarts(l: string)
    ensures "data:" <= l ==> l != "" && l[0] == 'd'
    ensures "event:" <= l ==> l != "" && l[0] == 'e'
  {
    assert "data:"[0] == 'd' && "event:"[0] == 'e';
  }

  /** What each reader makes of one line. */
  lemma DataLine(l: string)
    requires CleanLine(l)
    ensures "data:" <= l ==> LineData(l) == [Trim(l[5..])] && l[0] != '{'
    ensures l[0] == '{' ==> LineData(l) == [l]
    ensures !("data:" <= l) && l[0] != '{' ==> LineData(l) == []
    ensures "data:" <= l ==> forall f: Fields :: ReadField(f, l) == f.(dataLine := DataField(l))
    ensures !("data:" <= l) ==> forall f: Fields :: ReadField(f, l).dataLine == f.dataLine
  {
    assert TrimLineEnd(l) == l;
    PrefixStarts(l);
  }

  lemma {:induction false} PayloadLineCounts(f: seq<string>, l: string)
    requires l in f && LineData(l) != []
    ensures FrameData(f) != []
  {
    if f[0] != l {
      assert f == [f[0]] + f[1..];
      PayloadLineCounts(f[1..], l);
    }
  }

  ghost predicate CaptureFits(f: seq<string>) {
    |FieldData(ReadFields(f))| <= |FrameData(f)| && (FieldData(ReadFields(f)) == FrameData(f) <==> SinglePayload(f))
  }

  lemma EmptyHasNoBrace(f: seq<string>)
    requires (forall l :: l in f ==> CleanLine(l)) && FrameData(f) == []
    ensures NoBrace(f)
  {
    forall l | l in f ensures l != "" && l[0] != '{' {
      assert CleanLine(l);
      DataLine(l);
      if l[0] == '{' {
        PayloadLineCounts(f, l);
      }
    }
  }

  lemma SnocFields(init: seq<string>, last: string)
    ensures ReadFields(init + [last]) == ReadField(ReadFields(init), last)
  {
    assert (init + [last])[..|init|] == init;
  }

  lemma DataLineStep(init: seq<string>, last: string)
    requires (forall l :: l in init ==> CleanLine(l)) && CleanLine(last) && "data:" <= last
    ensures CaptureFits(init + [last])
  {
    SnocFields(init, last);
    FrameDataOfSnoc(init, last);
    DataLine(last);
    if FrameData(init) == [] {
      EmptyHasNoBrace(init);
      assert NoBrace(init + [last]);
    }
  }

  lemma OtherLineStep(init: seq<string>, last: string)
    requires CaptureFits(init) && CleanLine(last) && !("data:" <= last)
    ensures CaptureFits(init + [last])
  {
    SnocFields(init, last);
    FrameDataOfSnoc(init, last);
    DataLine(last);
    assert last in init + [last];
    if last[0] != '{' {
      assert NoBrace(init + [last]) <==> NoBrace(init) by {
        assert forall l :: l in init ==> l in init + [last];
      }
    }
  }

  /** Capture keeps at most what the lines carry: the last data line, unless it is blank. */
  lemma {:induction false} FrameCapture(f: seq<string>)
    requires forall l :: l in f ==> CleanLine(l)
    ensures CaptureFits(f)
  {
    if f != [] {
      var init, last := f[..|f| - 1], f[|f| - 1];
      assert f == init + [last] && last in f;
      FrameCapture(init);
      if "data:" <= last {
        DataLineStep(init, last);
      } else {
        OtherLineStep(init, last);
      }
    }
  }

  lemma {:induction false} CapturedIsFewer(frames: seq<seq<string>>)
    requires forall f :: f in frames ==> CleanFrame(f)
    ensures |ChunkPayloads(StreamChunks(frames))| <= |StreamData(frames)|
    ensures ChunkPayloads(StreamChunks(frames)) == StreamData(frames) <==> forall f :: f in frames ==> SinglePayload(f)
  {
    if frames != [] {
      var f, rest := frames[0], frames[1..];
      assert CleanFrame(f);
      CapturedIsFewer(rest);
      ChunkPayloadsOfConcat(ChunkOf(ReadFields(f)), StreamChunks(rest));
      FrameChunkPayload(f);
      FrameCapture(f);
      var a, b := FieldData(ReadFields(f)), ChunkPayloads(StreamChunks(rest));
      var c, d := FrameData(f), StreamData(rest);
      if a + b == c + d {
        assert |a + b| == |c + d|;
        assert a == (a + b)[..|a|] && c == (c + d)[..|c|];
        assert b == (a + b)[|a|..] && d == (c + d)[|c|..];
      }
      assert frames == [f] + rest;
    }
  }

  /**
   The two readers agree: on clean frames the payloads in the chunks are those `Next` returns before
   the end of the stream, exactly when every event carries at most one payload, on a data line that
   is not blank.
   */
  lemma ReadersAgree(frames: seq<seq<string>>)
    requires forall f :: f in frames ==> CleanFrame(f)
    ensures Payloads(StreamText(frames)).1 == EndOfStream
    ensures ChunkPayloads(Chunks(StreamText(frames))) == Payloads(StreamText(frames)).0 <==>
            forall f :: f in frames ==> SinglePayload(f)
  {
    LiveReads(frames);
    CaptureReads(frames);
    CapturedIsFewer(frames);
  }

  /** The usual event: an optional name and one data line. */
  function NamedFrame(name: string, data: string): seq<string> {
    (if name == "" then [] else ["event: " + name]) + ["data: " + data]
  }

  predicate Solid(s: string) {
    s != "" && '\n' !in s && !IsSpace(s[0]) && !IsSpace(s[|s| - 1])
  }

  lemma TrimAfterSpace(s: string)
    requires Solid(s)
    ensures Trim(" " + s) == s
  {
    assert (" " + s)[1..] == s;
    assert TrimLeft(" " + s) == TrimLeft(s) == s;
  }

  lemma CleanAfterSpace(field: string, value: string)
    requires (field == "data:" || field == "event:") && Solid(value) && |field| + 1 + |value| < MAX_LINE
    ensures CleanLine(field + " " + value)
  {
    var l := field + " " + value;
    assert l[|l| - 1] == value[|value| - 1] && l[0] == field[0] && '\n' !in field;
  }

  lemma FieldLine(field: string, value: string)
    requires field == "data:" || field == "event:"
    requires Solid(value) && |field| + 1 + |value| < MAX_LINE
    ensures var l := field + " " + value; CleanLine(l) && field <= l && Trim(l[|field|..]) == value
  {
    var l := field + " " + value;
    CleanAfterSpace(field, value);
    assert l[|field|..] == " " + value;
    TrimAfterSpace(value);
  }

  /** Such an event gives its data to `Next`, and to the chunk under its name. */
  lemma NamedFrameAgrees(name: string, data: string)
    requires (name == "" || Solid(name)) && Solid(data) && |name| + 7 < MAX_LINE && |data| + 6 < MAX_LINE
    ensures CleanFrame(NamedFrame(name, data)) && FrameData(NamedFrame(name, data)) == [data]
    ensures ReadFields(NamedFrame(name, data)) == Fields(name, Some(data))
  {
    var d := "data:" + " " + data;
    FieldLine("data:", data);
    DataLine(d);
    FrameDataOfSnoc([], d);
    assert ReadFields([d]) == Fields("", Some(data)) by { SnocFields([], d); }
    assert "data: " + data == d;
    if name != "" {
      var e := "event:" + " " + name;
      FieldLine("event:", name);
      PrefixStarts(e);
      PrefixStarts(d);
      DataLine(e);
      assert "event: " + name == e;
      assert ReadFields([e]) == Fields(name, None) by { SnocFields([], e); }
      SnocFields([e], d);
      FrameDataOfSnoc([], e);
      FrameDataOfSnoc([e], d);
    }
  }

  datatype Event = Event(name: string, data: string)

  predicate WellFormed(e: Event) {
    (e.name == "" || Solid(e.name)) && Solid(e.data) && |e.name| + 7 < MAX_LINE && |e.data| + 6 < MAX_LINE
  }

  function EventFrames(events: seq<Event>): seq<seq<string>> {
    if events == [] then [] else [NamedFrame(events[0].name, events[0].data)] + EventFrames(events[1..])
  }

  function Datas(events: seq<Event>): seq<string> {
    if events == [] then [] else [events[0].data] + Datas(events[1..])
  }

  /** The event's name and data, or its raw data line when it has no name. */
  function ExpectedChunk(e: Event): StreamChunk {
    if e.name == "" then StreamChunk("", "data: " + e.data) else StreamChunk(e.name, e.data)
  }

  function ExpectedChunks(events: seq<Event>): seq<StreamChunk> {
    if events == [] then [] else [ExpectedChunk(events[0])] + ExpectedChunks(events[1..])
  }

  /** For ordinary events both readers yield the same data in the same order. */
  lemma EventStreamsAgree(events: seq<Event>)
    requires forall e :: e in events ==> WellFormed(e)
    ensures Payloads(StreamText(EventFrames(events))) == (Datas(events), EndOfStream)
    ensures Chunks(StreamText(EventFrames(events))) == ExpectedChunks(events)
  {
    EventFramesAreClean(events);
    LiveReads(EventFrames(events));
    CaptureReads(EventFrames(events));
  }

  lemma {:induction false} EventFramesAreClean(events: seq<Event>)
    requires forall e :: e in events ==> WellFormed(e)
    ensures forall f :: f in EventFrames(events) ==> CleanFrame(f)
    ensures StreamData(EventFrames(events)) == Datas(events)
    ensures StreamChunks(EventFrames(events)) == ExpectedChunks(events)
  {
    if events != [] {
      var e, rest := events[0], events[1..];
      assert WellFormed(e);
      NamedFrameAgrees(e.name, e.data);
      EventFramesAreClean(rest);
      var frames := EventFrames(events);
      assert frames[0] == NamedFrame(e.name, e.data) && frames[1..] == EventFrames(rest);
      assert ChunkOf(ReadFields(frames[0])) == [ExpectedChunk(e)];
    }
  }

  lemma DataLineReads(data: string)
    requires Solid(data) && |data| + 6 < MAX_LINE
    ensures var l := "data: " + data;
            CleanLine(l) && LineData(l) == [data]
            && forall f: Fields :: ReadField(f, l) == f.(dataLine := Some(data))
  {
    var l := "data:" + " " + data;
    assert l == "data: " + data;
    FieldLine("data:", data);
    DataLine(l);
  }

  lemma TwoLines(a: string, b: string)
    requires Solid(a) && Solid(b) && |a| + 6 < MAX_LINE && |b| + 6 < MAX_LINE
    ensures var f := ["data: " + a] + ["data: " + b];
            FrameData(f) == [a, b] && ReadFields(f) == Fields("", Some(b))
  {
    var la, lb := "data: " + a, "data: " + b;
    DataLineReads(a);
    DataLineReads(b);
    FrameDataOfSnoc([], la);
    FrameDataOfSnoc([la], lb);
    SnocFields([], la);
    SnocFields([la], lb);
    assert [] + [la] == [la] && [a] + [b] == [a, b];
  }

  /** An event with two data lines gives the live reader both, the capture path only the second. */
  lemma TwoDataLinesDiffer(a: string, b: string)
    requires Solid(a) && Solid(b) && |a| + 6 < MAX_LINE && |b| + 6 < MAX_LINE
    ensures var text := StreamText([["data: " + a, "data: " + b]]);
            Payloads(text).0 == [a, b] && ChunkPayloads(Chunks(text)) == [b]
  {
    var f := ["data: " + a] + ["data: " + b];
    TwoLines(a, b);
    assert f == ["data: " + a, "data: " + b] && CleanFrame(f) by {
      DataLineReads(a);
      DataLineReads(b);
    }
    var frames := [f];
    assert frames[1..] == [];
    LiveReads(frames);
    CaptureReads(frames);
    assert StreamData(frames) == FrameData(f) + [] == [a, b];
    assert StreamChunks(frames) == ChunkOf(ReadFields(f)) + [] == ChunkOf(ReadFields(f));
    FrameChunkPayload(f);
  }
}
