/** A codec that reads what it writes: the law assumed of every codec can be met. */
module Codecs {
  import opened Wrappers
  import opened Messages
  import opened Conversation
  import opened Sse

  /** A text, marked character by character so that its end can be told. */
  ghost function Quote(s: string): string {
    if s == "" then ['0'] else ['1', s[0]] + Quote(s[1..])
  }

  ghost function Texts(ts: seq<string>): string {
    if ts == [] then ['0'] else ['1'] + (Quote(ts[0]) + Texts(ts[1..]))
  }

  ghost function Records(rs: seq<seq<string>>): string {
    if rs == [] then ['0'] else ['1'] + (Texts(rs[0]) + Records(rs[1..]))
  }

  ghost function Entries(m: map<string, string>): string
    decreases |m|
  {
    if m == map[] then ['0']
    else
      var k :| k in m;
      ['1'] + (Quote(k) + (Quote(m[k]) + Entries(Rest(m, k))))
  }

  ghost function Rest(m: map<string, string>, k: string): (r: map<string, string>)
    requires k in m
    ensures |r| < |m|
  {
    assert (m - {k}).Keys == m.Keys - {k};
    m - {k}
  }

  // ---------------------------------------------------------------- the texts can be told apart

  lemma {:induction false} QuoteCuts(a: string, b: string, x: string, y: string)
    requires Quote(a) + x == Quote(b) + y
    ensures a == b && x == y
  {
    var l, r := Quote(a) + x, Quote(b) + y;
    assert (a == "" <==> l[0] == '0') && (b == "" <==> r[0] == '0');
    if a == "" {
      assert l[1..] == x && r[1..] == y;
    } else {
      assert l[1] == a[0] && r[1] == b[0];
      assert l[2..] == Quote(a[1..]) + x && r[2..] == Quote(b[1..]) + y;
      QuoteCuts(a[1..], b[1..], x, y);
      assert a == [a[0]] + a[1..] && b == [b[0]] + b[1..];
    }
  }

  lemma TextsUnfold(a: seq<string>, x: string)
    requires a != []
    ensures (Texts(a) + x)[0] == '1' && (Texts(a) + x)[1..] == Quote(a[0]) + (Texts(a[1..]) + x)
  {
  }

  lemma {:induction false} TextsCut(a: seq<string>, b: seq<string>, x: string, y: string)
    requires Texts(a) + x == Texts(b) + y
    ensures a == b && x == y
  {
    if a != [] && b != [] {
      TextsUnfold(a, x);
      TextsUnfold(b, y);
      QuoteCuts(a[0], b[0], Texts(a[1..]) + x, Texts(b[1..]) + y);
      TextsCut(a[1..], b[1..], x, y);
      assert a == [a[0]] + a[1..] && b == [b[0]] + b[1..];
    } else {
      assert (Texts(a) + x)[0] == (Texts(b) + y)[0];
      assert a == [] && b == [];
      assert (['0'] + x)[1..] == x && (['0'] + y)[1..] == y;
    }
  }

  lemma RecordsUnfold(a: seq<seq<string>>, x: string)
    requires a != []
    ensures (Records(a) + x)[0] == '1' && (Records(a) + x)[1..] == Texts(a[0]) + (Records(a[1..]) + x)
  {
  }

  lemma {:induction false} RecordsCut(a: seq<seq<string>>, b: seq<seq<string>>, x: string, y: string)
    requires Records(a) + x == Records(b) + y
    ensures a == b && x == y
  {
    if a != [] && b != [] {
      RecordsUnfold(a, x);
      RecordsUnfold(b, y);
      TextsCut(a[0], b[0], Records(a[1..]) + x, Records(b[1..]) + y);
      RecordsCut(a[1..], b[1..], x, y);
      assert a == [a[0]] + a[1..] && b == [b[0]] + b[1..];
    } else {
      assert (Records(a) + x)[0] == (Records(b) + y)[0];
      assert a == [] && b == [];
      assert (['0'] + x)[1..] == x && (['0'] + y)[1..] == y;
    }
  }

  lemma EntriesUnfold(m: map<string, string>) returns (k: string)
    requires m != map[]
    ensures k in m && Entries(m) == ['1'] + (Quote(k) + (Quote(m[k]) + Entries(Rest(m, k))))
  {
    k :| k in m && Entries(m) == ['1'] + (Quote(k) + (Quote(m[k]) + Entries(Rest(m, k))));
  }

  lemma PairsTell(k: string, v: string, x: string, j: string, w: string, y: string)
    requires ['1'] + (Quote(k) + (Quote(v) + x)) == ['1'] + (Quote(j) + (Quote(w) + y))
    ensures k == j && v == w && x == y
  {
    var l, r := Quote(k) + (Quote(v) + x), Quote(j) + (Quote(w) + y);
    assert (['1'] + l)[1..] == l && (['1'] + r)[1..] == r;
    QuoteCuts(k, j, Quote(v) + x, Quote(w) + y);
    QuoteCuts(v, w, x, y);
  }

  lemma RestAnd(m: map<string, string>, k: string)
    requires k in m
    ensures m == Rest(m, k)[k := m[k]]
  {
  }

  lemma EmptyEntries(m: map<string, string>)
    ensures m == map[] <==> Entries(m)[0] == '0'
  {
  }

  lemma {:induction false} EntriesTell(a: map<string, string>, b: map<string, string>)
    requires Entries(a) == Entries(b)
    ensures a == b
    decreases |a|
  {
    EmptyEntries(a);
    EmptyEntries(b);
    if a != map[] {
      var k := EntriesUnfold(a);
      var j := EntriesUnfold(b);
      PairsTell(k, a[k], Entries(Rest(a, k)), j, b[j], Entries(Rest(b, j)));
      EntriesTell(Rest(a, k), Rest(b, j));
      RestAnd(a, k);
      RestAnd(b, j);
    }
  }

  // ---------------------------------------------------------------- a message as a text

  ghost function CallRecords(calls: seq<ToolCall>): seq<seq<string>> {
    seq(|calls|, i requires 0 <= i < |calls| => [calls[i].id, calls[i].name, calls[i].input])
  }

  ghost function ResultRecords(rs: seq<ToolResult>): seq<seq<string>> {
    seq(|rs|, i requires 0 <= i < |rs| => [rs[i].toolCallId, rs[i].output, rs[i].status, rs[i].error, rs[i].reason])
  }

  ghost function AttachmentRecords(ats: seq<Attachment>): seq<seq<string>> {
    seq(|ats|, i requires 0 <= i < |ats| =>
      [ats[i].path, ats[i].raw, ats[i].content, ats[i].contentType, ats[i].transform])
  }

  lemma CallsTell(a: seq<ToolCall>, b: seq<ToolCall>)
    requires CallRecords(a) == CallRecords(b)
    ensures a == b
  {
    assert |CallRecords(a)| == |a| && |CallRecords(b)| == |b|;
    forall i | 0 <= i < |a| ensures a[i] == b[i] {
      var r, q := CallRecords(a)[i], CallRecords(b)[i];
      assert r[0] == q[0] && r[1] == q[1] && r[2] == q[2];
    }
  }

  lemma ResultsTell(a: seq<ToolResult>, b: seq<ToolResult>)
    requires ResultRecords(a) == ResultRecords(b)
    ensures a == b
  {
    assert |ResultRecords(a)| == |a| && |ResultRecords(b)| == |b|;
    forall i | 0 <= i < |a| ensures a[i] == b[i] {
      var r, q := ResultRecords(a)[i], ResultRecords(b)[i];
      assert r[0] == q[0] && r[1] == q[1] && r[2] == q[2] && r[3] == q[3] && r[4] == q[4];
    }
  }

  lemma AttachmentsTell(a: seq<Attachment>, b: seq<Attachment>)
    requires AttachmentRecords(a) == AttachmentRecords(b)
    ensures a == b
  {
    assert |AttachmentRecords(a)| == |a| && |AttachmentRecords(b)| == |b|;
    forall i | 0 <= i < |a| ensures a[i] == b[i] {
      var r, q := AttachmentRecords(a)[i], AttachmentRecords(b)[i];
      assert r[0] == q[0] && r[1] == q[1] && r[2] == q[2] && r[3] == q[3] && r[4] == q[4];
    }
  }

  ghost function Tail(m: Message): string {
    Records(ResultRecords(m.toolResults)) + (Records(AttachmentRecords(m.attachments)) + Entries(m.metadata))
  }

  ghost function Written(m: Message): string {
    ['m'] + (Quote(m.role) + (Quote(m.content) + (Records(CallRecords(m.toolCalls)) + Tail(m))))
  }

  lemma TailTells(a: Message, b: Message)
    requires Tail(a) == Tail(b)
    ensures a.toolResults == b.toolResults && a.attachments == b.attachments && a.metadata == b.metadata
  {
    var x, y := Entries(a.metadata), Entries(b.metadata);
    RecordsCut(ResultRecords(a.toolResults), ResultRecords(b.toolResults),
               Records(AttachmentRecords(a.attachments)) + x, Records(AttachmentRecords(b.attachments)) + y);
    RecordsCut(AttachmentRecords(a.attachments), AttachmentRecords(b.attachments), x, y);
    ResultsTell(a.toolResults, b.toolResults);
    AttachmentsTell(a.attachments, b.attachments);
    EntriesTell(a.metadata, b.metadata);
  }

  lemma WrittenTells(a: Message, b: Message)
    requires Written(a) == Written(b)
    ensures a == b
  {
    var x, y := Records(CallRecords(a.toolCalls)) + Tail(a), Records(CallRecords(b.toolCalls)) + Tail(b);
    assert Written(a)[1..] == Quote(a.role) + (Quote(a.content) + x);
    assert Written(b)[1..] == Quote(b.role) + (Quote(b.content) + y);
    QuoteCuts(a.role, b.role, Quote(a.content) + x, Quote(b.content) + y);
    QuoteCuts(a.content, b.content, x, y);
    RecordsCut(CallRecords(a.toolCalls), CallRecords(b.toolCalls), Tail(a), Tail(b));
    CallsTell(a.toolCalls, b.toolCalls);
    TailTells(a, b);
  }

  ghost function Read(s: string): Option<Message> {
    if s == "null" then Some(ZERO)
    else if exists m :: Written(m) == s then
      var m :| Written(m) == s;
      Some(m)
    else None
  }

  lemma ReadsWritten(m: Message)
    ensures Written(m) != "" && Written(m) != "null" && Read(Written(m)) == Some(m)
  {
    assert Written(m)[0] == 'm' && "null"[0] == 'n';
    forall other | Written(other) == Written(m) ensures other == m {
      WrittenTells(other, m);
    }
  }

  /** Blank text is no JSON; of any other the white space at both ends goes. */
  function TrimmedJson(s: string): Option<string> {
    if Trim(s) == "" then None else Some(Trim(s))
  }

  /** The codec with this way to compact inputs, and the writing and reading above. */
  ghost function CodecOf(compact: string -> Option<string>): Codec {
    var bare := Codec(compact, (m: Message) => "", (calls: seq<ToolCall>) => "", (s: string) => None);
    bare.(write := (m: Message) => Written(ReadBack(bare, m)), read := (s: string) => Read(s))
  }

  lemma {:induction false} SameCompacted(a: Codec, b: Codec, calls: seq<ToolCall>)
    requires a.compact == b.compact && Encodes(a, calls)
    ensures Encodes(b, calls) && Compacted(a, calls) == Compacted(b, calls)
  {
    if calls != [] {
      SameCompacted(a, b, calls[1..]);
    }
  }

  lemma TrimOne()
    ensures TrimmedJson("").None? && TrimmedJson(" 1") == Some("1") && TrimmedJson("1") == Some("1")
  {
    assert " 1"[1..] == "1" && Trim("1") == "1" && Trim(" 1") == "1";
  }

  lemma CodecOfReads(compact: string -> Option<string>)
    ensures Lawful(CodecOf(compact))
  {
    var codec := CodecOf(compact);
    var bare := Codec(compact, (m: Message) => "", (calls: seq<ToolCall>) => "", (s: string) => None);
    forall m: Message | Encodes(codec, m.toolCalls)
      ensures codec.write(m) != "" && codec.read(codec.write(m)) == Some(ReadBack(codec, m))
    {
      SameCompacted(codec, bare, m.toolCalls);
      ReadsWritten(ReadBack(bare, m));
    }
  }

  /**
   There is a codec that reads back what it wrote, and null as the zero message, and for which one
   input is not JSON and another is rewritten.
   */
  lemma LawfulCodec() returns (codec: Codec)
    ensures Lawful(codec)
    ensures codec.compact("").None? && codec.compact(" 1") == Some("1") && codec.compact("1") == Some("1")
  {
    codec := CodecOf(TrimmedJson);
    CodecOfReads(TrimmedJson);
    TrimOne();
  }
}
