/**
 Lines that end in a carriage return and a newline, which the WHATWG HTML Living Standard, section
 9.2.5, allows. The live reader takes them as it takes newlines; the capture path sees one event.
 */
module SseLineEnds {
  import opened Wrappers
  import opened Sse
  import opened SseLaws

  /** Lines on the wire, each with a carriage return and a newline. */
  function CrLfText(lines: seq<string>): string {
    if lines == [] then "" else lines[0] + "\r\n" + CrLfText(lines[1..])
  }

  /** The lines of events, an empty one after each. */
  function Lines(frames: seq<seq<string>>): seq<string> {
    if frames == [] then [] else frames[0] + [""] + Lines(frames[1..])
  }

  /** All field lines, as of a single event. */
  function Flat(frames: seq<seq<string>>): seq<string> {
    if frames == [] then [] else frames[0] + Flat(frames[1..])
  }

  /** A clean line, or an empty one, that fits the live parser's bound with its ending. */
  predicate FittingLine(l: string) {
    l == "" || (CleanLine(l) && |l| + 1 < MAX_LINE)
  }

  predicate FittingFrame(f: seq<string>) {
    CleanFrame(f) && forall l | l in f :: |l| + 1 < MAX_LINE
  }

  lemma {:induction false} LinesFit(frames: seq<seq<string>>)
    requires forall f :: f in frames ==> FittingFrame(f)
    ensures forall l :: l in Lines(frames) ==> FittingLine(l)
    ensures forall l :: l in Flat(frames) ==> CleanLine(l)
  {
    if frames != [] {
      LinesFit(frames[1..]);
      assert FittingFrame(frames[0]);
    }
  }

  // ---------------------------------------------------------------- the live parser

  lemma LineEndsGo(l: string)
    requires FittingLine(l)
    ensures TrimLineEnd(l + "\r\n") == TrimLineEnd(l) == l
  {
    assert (l + "\r\n")[..|l| + 1] == l + "\r" && (l + "\r")[..|l|] == l;
    assert TrimLineEnd(l + "\r\n") == TrimLineEnd(l + "\r");
  }

  lemma CrLfLineIsConsumed(l: string, rest: string)
    requires FittingLine(l)
    ensures Payloads(l + "\r\n" + rest) == Prepend(LineData(l), Payloads(rest))
  {
    var text := l + "\r\n" + rest;
    assert text == (l + "\r") + "\n" + rest && (l + "\r") + "\n" == l + "\r\n";
    NextLineIs(l + "\r", rest);
    LineEndsGo(l);
    PrependTwice([], [], Payloads(rest));
    match Interpret(l)
    case None =>
      assert NextOf(text) == NextOf(rest);
    case Some(data) =>
      assert NextOf(text) == (Payload(data), rest);
  }

  lemma {:induction false} LinesAreConsumed(lines: seq<string>)
    requires forall l :: l in lines ==> FittingLine(l)
    ensures Payloads(CrLfText(lines)) == (FrameData(lines), EndOfStream)
  {
    if lines != [] {
      LinesAreConsumed(lines[1..]);
      assert lines[0] in lines;
      CrLfLineIsConsumed(lines[0], CrLfText(lines[1..]));
    }
  }

  lemma {:induction false} DataOfConcat(a: seq<string>, b: seq<string>)
    ensures FrameData(a + b) == FrameData(a) + FrameData(b)
  {
    if a == [] {
      assert a + b == b;
    } else {
      assert (a + b)[1..] == a[1..] + b;
      DataOfConcat(a[1..], b);
    }
  }

  lemma {:induction false} SameData(frames: seq<seq<string>>)
    ensures FrameData(Lines(frames)) == StreamData(frames) && FrameData(Flat(frames)) == StreamData(frames)
  {
    if frames != [] {
      SameData(frames[1..]);
      DataOfConcat(frames[0], Flat(frames[1..]));
      DataOfConcat(frames[0] + [""], Lines(frames[1..]));
      FrameDataOfSnoc(frames[0], "");
      assert FrameData(frames[0]) + [] == FrameData(frames[0]);
    }
  }

  // ---------------------------------------------------------------- the capture path

  lemma {:induction false} NeverBlank(lines: seq<string>)
    requires forall l :: l in lines ==> FittingLine(l)
    ensures FirstBlank(CrLfText(lines)) == |CrLfText(lines)|
    ensures CrLfText(lines) == "" || CrLfText(lines)[0] != '\n'
  {
    if lines != [] {
      var l, rest := lines[0], CrLfText(lines[1..]);
      assert l in lines;
      NeverBlank(lines[1..]);
      assert CrLfText(lines) == (l + "\r") + ("\n" + rest);
      NoBlankInLine(l + "\r", "\n" + rest);
      assert ("\n" + rest)[1..] == rest;
    }
  }

  lemma {:induction false} ReturnGoes(s: string)
    ensures Trim(s + "\r") == Trim(s)
  {
    if s != "" && IsSpace(s[0]) {
      assert (s + "\r")[1..] == s[1..] + "\r";
      ReturnGoes(s[1..]);
    } else if s == "" {
      assert s + "\r" == "\r" && "\r"[1..] == "";
    } else {
      assert (s + "\r")[..|s|] == s;
    }
  }

  lemma PrefixWithReturn(field: string, l: string)
    requires '\r' !in field
    ensures field <= l + "\r" <==> field <= l
    ensures field <= l ==> (l + "\r")[|field|..] == l[|field|..] + "\r"
  {
    assert (l + "\r")[|l|] == '\r' && '\r' in l + "\r";
    assert field <= l + "\r" && field != l + "\r" ==> field <= l;
  }

  /** A field line reads the same with a carriage return behind it, and a bare one says nothing. */
  lemma FieldWithReturn(f: Fields, l: string)
    ensures ReadField(f, l + "\r") == ReadField(f, l) && ReadField(f, "") == f
  {
    PrefixWithReturn("event:", l);
    PrefixWithReturn("data:", l);
    if "event:" <= l {
      ReturnGoes(l[6..]);
    } else if "data:" <= l {
      ReturnGoes(l[5..]);
    }
  }

  function Returned(lines: seq<string>): seq<string> {
    seq(|lines|, i requires 0 <= i < |lines| => lines[i] + "\r")
  }

  lemma {:induction false} FieldsOfReturned(lines: seq<string>)
    ensures ReadFields(Returned(lines)) == ReadFields(lines)
  {
    if lines != [] {
      var init, last := lines[..|lines| - 1], lines[|lines| - 1];
      FieldsOfReturned(init);
      assert Returned(lines) == Returned(init) + [last + "\r"];
      SnocFields(Returned(init), last + "\r");
      FieldWithReturn(ReadFields(init), last);
    }
  }

  /** Reading fields from where an earlier reading left off. */
  function ReadOn(f: Fields, lines: seq<string>): Fields {
    if lines == [] then f else ReadField(ReadOn(f, lines[..|lines| - 1]), lines[|lines| - 1])
  }

  lemma {:induction false} ReadOnOfConcat(f: Fields, a: seq<string>, b: seq<string>)
    ensures ReadOn(f, a + b) == ReadOn(ReadOn(f, a), b)
  {
    if b == [] {
      assert a + b == a;
    } else {
      assert (a + b)[..|a + b| - 1] == a + b[..|b| - 1];
      ReadOnOfConcat(f, a, b[..|b| - 1]);
    }
  }

  lemma {:induction false} ReadOnFromStart(lines: seq<string>)
    ensures ReadOn(Fields("", None), lines) == ReadFields(lines)
  {
    if lines != [] {
      ReadOnFromStart(lines[..|lines| - 1]);
    }
  }

  lemma BlankSaysNothing(f: Fields, lines: seq<string>)
    ensures ReadOn(f, lines + [""]) == ReadOn(f, lines)
  {
    assert (lines + [""])[..|lines|] == lines;
    FieldWithReturn(ReadOn(f, lines), "");
  }

  /** The empty lines between events say nothing. */
  lemma {:induction false} FieldsOfLines(f: Fields, frames: seq<seq<string>>)
    ensures ReadOn(f, Lines(frames)) == ReadOn(f, Flat(frames))
    decreases |frames|
  {
    if frames != [] {
      BlankSaysNothing(f, frames[0]);
      ReadOnOfConcat(f, frames[0] + [""], Lines(frames[1..]));
      ReadOnOfConcat(f, frames[0], Flat(frames[1..]));
      FieldsOfLines(ReadOn(f, frames[0]), frames[1..]);
    }
  }

  lemma {:induction false} TextOfConcat(a: seq<string>, b: seq<string>)
    ensures CrLfText(a + b) == CrLfText(a) + CrLfText(b)
  {
    if a == [] {
      assert a + b == b;
    } else {
      assert (a + b)[1..] == a[1..] + b;
      TextOfConcat(a[1..], b);
    }
  }

  lemma SplitFirst(l: string, tail: string)
    requires FittingLine(l)
    ensures SplitLines(l + "\r\n" + tail) == [l + "\r"] + SplitLines(tail)
  {
    assert l + "\r\n" + tail == (l + "\r") + ("\n" + tail);
    SplitAfterLine(l + "\r", tail);
  }

  lemma ReturnedFirst(front: seq<string>, last: string)
    requires front != []
    ensures Returned(front) + [last] == [front[0] + "\r"] + (Returned(front[1..]) + [last])
    ensures CrLfText(front) + last == front[0] + "\r\n" + (CrLfText(front[1..]) + last)
  {
    assert Returned(front) == [front[0] + "\r"] + Returned(front[1..]);
  }

  lemma SplitLast(last: string)
    requires '\n' !in last
    ensures SplitLines(CrLfText([]) + last) == Returned([]) + [last]
  {
    NewlineAfter(last, "");
    assert last + "" == last && CrLfText([]) + last == last;
    assert Returned([]) + [last] == [last];
  }

  /** Lines up to a last one that has no ending. */
  lemma {:induction false} SplitReturned(front: seq<string>, last: string)
    requires '\n' !in last && forall l :: l in front ==> FittingLine(l)
    ensures SplitLines(CrLfText(front) + last) == Returned(front) + [last]
  {
    if front == [] {
      SplitLast(last);
    } else {
      assert front[0] in front;
      SplitReturned(front[1..], last);
      ReturnedFirst(front, last);
      SplitFirst(front[0], CrLfText(front[1..]) + last);
    }
  }

  lemma SpaceGoes(s: string, c: char)
    requires IsSpace(c)
    ensures TrimRight(s + [c]) == TrimRight(s)
  {
    assert (s + [c])[..|s|] == s;
  }

  lemma EndingGoes(s: string)
    ensures TrimRight(s + "\r\n") == TrimRight(s)
  {
    SpaceGoes(s, '\r');
    SpaceGoes(s + ['\r'], '\n');
    assert s + "\r\n" == (s + ['\r']) + ['\n'];
  }

  lemma TrimmedEnds(s: string)
    requires s != "" && !IsSpace(s[0]) && !IsSpace(s[|s| - 1])
    ensures Trim(s + "\r\n\r\n") == s
  {
    EndingGoes(s);
    EndingGoes(s + "\r\n");
    assert s + "\r\n\r\n" == (s + "\r\n") + "\r\n" && (s + "\r\n\r\n")[0] == s[0];
  }

  /** The lines of some events: a field line, before it others, and an empty line behind. */
  lemma {:induction false} LinesEnd(frames: seq<seq<string>>) returns (front: seq<string>, last: string)
    requires frames != [] && forall f :: f in frames ==> FittingFrame(f)
    ensures Lines(frames) == front + [last] + [""] && CleanLine(last)
    ensures front == [] || CleanLine(front[0])
  {
    var f := frames[0];
    assert FittingFrame(f) && CleanLine(f[0]) && CleanLine(f[|f| - 1]);
    if |frames| == 1 {
      assert Lines(frames[1..]) == [];
      front, last := f[..|f| - 1], f[|f| - 1];
      assert f == front + [last];
    } else {
      var rest;
      rest, last := LinesEnd(frames[1..]);
      front := f + [""] + rest;
      assert front[0] == f[0];
    }
  }

  lemma OneEvent(event: string)
    requires FirstBlank(event) == |event|
    ensures Chunks(event) == EventChunk(event)
  {
    assert SplitEvents(event) == [event] && [event][..0] == [];
    assert EventChunks([event]) == EventChunks([]) + EventChunk(event);
  }

  lemma LastTwo(front: seq<string>, last: string)
    ensures CrLfText(front + [last] + [""]) == CrLfText(front) + last + "\r\n\r\n"
  {
    TextOfConcat(front + [last], [""]);
    TextOfConcat(front, [last]);
    assert [last][1..] == [] && [""][1..] == [] && CrLfText([last]) == last + "\r\n" && CrLfText([""]) == "\r\n";
  }

  lemma FieldsOfWhole(front: seq<string>, last: string)
    ensures ReadFields(Returned(front) + [last]) == ReadFields(front + [last])
  {
    SnocFields(Returned(front), last);
    FieldsOfReturned(front);
    SnocFields(front, last);
  }

  lemma WholeIsTrimmed(front: seq<string>, last: string)
    requires CleanLine(last) && (front == [] || CleanLine(front[0]))
    ensures Trim(CrLfText(front + [last] + [""])) == CrLfText(front) + last
  {
    var s := CrLfText(front) + last;
    LastTwo(front, last);
    assert s[|s| - 1] == last[|last| - 1];
    assert s[0] == if front == [] then last[0] else front[0][0];
    TrimmedEnds(s);
  }

  /** The event that the capture path sees: all the lines, the last without its ending. */
  lemma WholeChunk(front: seq<string>, last: string)
    requires (forall l :: l in front ==> FittingLine(l)) && CleanLine(last) && (front == [] || CleanLine(front[0]))
    ensures EventChunk(CrLfText(front + [last] + [""])) == ChunkOf(ReadFields(front + [last]))
  {
    WholeIsTrimmed(front, last);
    SplitReturned(front, last);
    FieldsOfWhole(front, last);
  }

  /** Such a stream is captured as a single event with all its field lines. */
  lemma CrLfCaptureReads(frames: seq<seq<string>>)
    requires frames != [] && forall f :: f in frames ==> FittingFrame(f)
    ensures Chunks(CrLfText(Lines(frames))) == ChunkOf(ReadFields(Flat(frames)))
  {
    LinesFit(frames);
    NeverBlank(Lines(frames));
    OneEvent(CrLfText(Lines(frames)));
    var front, last := LinesEnd(frames);
    assert forall l :: l in front ==> l in Lines(frames);
    WholeChunk(front, last);
    BlankSaysNothing(Fields("", None), front + [last]);
    FieldsOfLines(Fields("", None), frames);
    ReadOnFromStart(front + [last]);
    ReadOnFromStart(Flat(frames));
  }

  /** `Next` yields the payloads it yields when the lines end in newlines. */
  lemma CrLfLiveReads(frames: seq<seq<string>>)
    requires forall f :: f in frames ==> FittingFrame(f)
    ensures Payloads(CrLfText(Lines(frames))) == (StreamData(frames), EndOfStream)
    ensures Payloads(CrLfText(Lines(frames))) == Payloads(StreamText(frames))
  {
    LinesFit(frames);
    LinesAreConsumed(Lines(frames));
    SameData(frames);
    LiveReads(frames);
  }

  /**
   So on lines with a carriage return the two readers agree exactly when the whole stream carries at
   most one payload, on a data line that is not blank.
   */
  lemma CrLfReadersAgree(frames: seq<seq<string>>)
    requires frames != [] && forall f :: f in frames ==> FittingFrame(f)
    ensures var raw := CrLfText(Lines(frames));
            ChunkPayloads(Chunks(raw)) == Payloads(raw).0 <==> SinglePayload(Flat(frames))
  {
    CrLfLiveReads(frames);
    CrLfCaptureReads(frames);
    LinesFit(frames);
    SameData(frames);
    FrameChunkPayload(Flat(frames));
    FrameCapture(Flat(frames));
  }

  lemma TwoEventsText(la: string, lb: string)
    ensures var frames := [[la]] + [[lb]];
            Lines(frames) == [la] + [""] + ([lb] + [""]) && Flat(frames) == [la] + [lb]
            && CrLfText(Lines(frames)) == la + "\r\n\r\n" + (lb + "\r\n\r\n")
  {
    var frames := [[la]] + [[lb]];
    assert frames[1..] == [[lb]] && [[lb]][1..] == [];
    assert Lines([[lb]]) == [lb] + [""] && Flat([[lb]]) == [lb];
    LastTwo([], la);
    LastTwo([], lb);
    assert [] + [la] == [la] && [] + [lb] == [lb] && CrLfText([]) + la == la && CrLfText([]) + lb == lb;
    TextOfConcat([la] + [""], [lb] + [""]);
  }

  /** Two events: the live reader has both payloads, the capture path the second alone. */
  lemma CrLfHidesFirst(a: string, b: string)
    requires Solid(a) && Solid(b) && |a| + 7 < MAX_LINE && |b| + 7 < MAX_LINE
    ensures var raw := "data: " + a + "\r\n\r\n" + ("data: " + b + "\r\n\r\n");
            Payloads(raw).0 == [a, b] && ChunkPayloads(Chunks(raw)) == [b]
  {
    var la, lb := "data: " + a, "data: " + b;
    var frames := [[la]] + [[lb]];
    TwoEventsText(la, lb);
    TwoLines(a, b);
    assert FittingFrame([la]) && FittingFrame([lb]) by {
      DataLineReads(a);
      DataLineReads(b);
    }
    CrLfLiveReads(frames);
    CrLfCaptureReads(frames);
    FrameChunkPayload(Flat(frames));
    SameData(frames);
  }
}
