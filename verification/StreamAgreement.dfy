/**
 From the provider's bytes to one response, twice: the relay over the live reader
 (internal/runtime/streaming.go), and reassembly over the captured chunks (internal/proxy/capture.go,
 internal/provider/anthropic.go). JSON decoding is any function of a payload's text.
 */
module StreamAgreement {
  import opened Streaming
  import opened StreamingLaws
  import Sse
  import SseLaws

  function KindNamed(name: string): Kind {
    if name == "message_start" then MessageStart
    else if name == "content_block_start" then BlockStart
    else if name == "content_block_delta" then BlockDelta
    else if name == "content_block_stop" then BlockStop
    else if name == "message_delta" then MessageDelta
    else if name == "message_stop" then MessageStop
    else OtherKind(name)
  }

  function Decode(decode: string -> Payload, datas: seq<string>): seq<Payload> {
    if datas == [] then [] else Decode(decode, datas[..|datas| - 1]) + [decode(datas[|datas| - 1])]
  }

  /** The captured chunks as reassembly reads them. */
  function Read(decode: string -> Payload, chunks: seq<Sse.StreamChunk>): seq<Chunk> {
    if chunks == [] then []
    else
      var last := chunks[|chunks| - 1];
      Read(decode, chunks[..|chunks| - 1]) + [Chunk(KindNamed(last.eventType), decode(last.data))]
  }

  /** What the relay makes of the bytes, read by repeated `Next`. */
  function Live(decode: string -> Payload, raw: string): RelayState {
    Relayed(Decode(decode, Sse.Payloads(raw).0))
  }

  /** What is captured of them. */
  function Captured(decode: string -> Payload, raw: string): seq<Chunk> {
    Read(decode, Sse.Chunks(raw))
  }

  lemma PayloadsOfSnoc(chunks: seq<Sse.StreamChunk>, c: Sse.StreamChunk)
    ensures SseLaws.ChunkPayloads(chunks + [c]) == SseLaws.ChunkPayloads(chunks) + [SseLaws.ChunkPayload(c)]
  {
    SseLaws.ChunkPayloadsOfConcat(chunks, [c]);
    assert [c][1..] == [];
  }

  /** Named chunks hold exactly the payloads. */
  lemma {:induction false} ReadDatas(decode: string -> Payload, chunks: seq<Sse.StreamChunk>)
    requires forall c :: c in chunks ==> c.eventType != ""
    ensures Datas(Read(decode, chunks)) == Decode(decode, SseLaws.ChunkPayloads(chunks))
  {
    if chunks != [] {
      var init, last := chunks[..|chunks| - 1], chunks[|chunks| - 1];
      assert chunks == init + [last] && last in chunks;
      ReadDatas(decode, init);
      PayloadsOfSnoc(init, last);
      DatasOfSnoc(Read(decode, init), Chunk(KindNamed(last.eventType), decode(last.data)));
      var datas := SseLaws.ChunkPayloads(init);
      assert (datas + [last.data])[..|datas|] == datas;
    }
  }

  /** Every event has one payload, on a data line, and a name. */
  ghost predicate NamedEvents(frames: seq<seq<string>>) {
    && (forall f :: f in frames ==> SseLaws.CleanFrame(f) && SseLaws.SinglePayload(f))
    && (forall c :: c in Sse.Chunks(SseLaws.StreamText(frames)) ==> c.eventType != "")
  }

  /** The relay then works on the payloads that reassembly finds in the chunks. */
  lemma SamePayloads(decode: string -> Payload, frames: seq<seq<string>>)
    requires NamedEvents(frames)
    ensures var raw := SseLaws.StreamText(frames);
            Sse.Payloads(raw).1 == Sse.EndOfStream && Live(decode, raw) == Relayed(Datas(Captured(decode, raw)))
  {
    SseLaws.ReadersAgree(frames);
    ReadDatas(decode, Sse.Chunks(SseLaws.StreamText(frames)));
  }

  /**
   End to end. On the bytes of named events with one payload each, for any decoding under which the
   names are the payloads' types, the relay and reassembly report the same response: reassembly
   succeeds exactly when every payload it reads decodes, and then the texts agree exactly when only
   text deltas carry text, and each token count exactly when it is settled.
   */
  lemma BothPathsAgree(decode: string -> Payload, frames: seq<seq<string>>, body: seq<Chunk>, tail: seq<Chunk>)
    requires NamedEvents(frames)
    requires Captured(decode, SseLaws.StreamText(frames)) == body + tail && OwnNames(body + tail)
    requires Unstopped(Datas(body)) && EndsStream(tail)
    ensures var raw, ps := SseLaws.StreamText(frames), Datas(body);
            var live, captured := Live(decode, raw), Reassembled(Captured(decode, raw));
            SentText(live.sent) == live.content
            && (captured.Success? <==> Readable(body))
            && (captured.Success? ==>
                  (live.content == captured.value.text <==> TextOnlyInTextDeltas(ps))
                  && (live.inputTokens == captured.value.inputTokens <==> Settled(InputCounts(ps)))
                  && (live.outputTokens == captured.value.outputTokens <==> Settled(OutputCounts(ps))))
  {
    SamePayloads(decode, frames);
    LiveAgreesWithCapture(body, tail);
  }

  // ---------------------------------------------------------------- ordinary streams

  /** An event of the provider's wire format. */
  predicate Ordinary(decode: string -> Payload, e: SseLaws.Event) {
    SseLaws.WellFormed(e) && e.name != "" && (decode(e.data).Decoded? ==> decode(e.data).kind == KindNamed(e.name))
  }

  /** The events as reassembly reads them. */
  function Sent(decode: string -> Payload, events: seq<SseLaws.Event>): seq<Chunk> {
    if events == [] then []
    else
      var last := events[|events| - 1];
      Sent(decode, events[..|events| - 1]) + [Chunk(KindNamed(last.name), decode(last.data))]
  }

  lemma {:induction false} ExpectedOfSnoc(events: seq<SseLaws.Event>, e: SseLaws.Event)
    ensures SseLaws.ExpectedChunks(events + [e]) == SseLaws.ExpectedChunks(events) + [SseLaws.ExpectedChunk(e)]
    ensures SseLaws.Datas(events + [e]) == SseLaws.Datas(events) + [e.data]
  {
    if events == [] {
      assert events + [e] == [e] && [e][1..] == [];
    } else {
      assert (events + [e])[1..] == events[1..] + [e];
      ExpectedOfSnoc(events[1..], e);
    }
  }

  lemma {:induction false} SentIsRead(decode: string -> Payload, events: seq<SseLaws.Event>)
    requires forall e :: e in events ==> Ordinary(decode, e)
    ensures Read(decode, SseLaws.ExpectedChunks(events)) == Sent(decode, events)
    ensures Decode(decode, SseLaws.Datas(events)) == Datas(Sent(decode, events))
    ensures OwnNames(Sent(decode, events))
  {
    if events != [] {
      var init, last := events[..|events| - 1], events[|events| - 1];
      assert events == init + [last] && last in events;
      SentIsRead(decode, init);
      ExpectedOfSnoc(init, last);
      var chunks, datas := SseLaws.ExpectedChunks(init), SseLaws.Datas(init);
      assert (chunks + [SseLaws.ExpectedChunk(last)])[..|chunks|] == chunks;
      assert (datas + [last.data])[..|datas|] == datas;
      DatasOfSnoc(Sent(decode, init), Chunk(KindNamed(last.name), decode(last.data)));
    }
  }

  lemma {:induction false} SentOfConcat(decode: string -> Payload, a: seq<SseLaws.Event>, b: seq<SseLaws.Event>)
    ensures Sent(decode, a + b) == Sent(decode, a) + Sent(decode, b)
  {
    if b == [] {
      assert a + b == a;
    } else {
      assert (a + b)[..|a + b| - 1] == a + b[..|b| - 1];
      SentOfConcat(decode, a, b[..|b| - 1]);
    }
  }

  /** The same for the provider's ordinary events, each a name and a data line, closed by message_stop or not. */
  lemma OrdinaryStreamAgrees(decode: string -> Payload, events: seq<SseLaws.Event>, tail: seq<SseLaws.Event>)
    requires forall e :: e in events + tail ==> Ordinary(decode, e)
    requires Unstopped(Datas(Sent(decode, events))) && EndsStream(Sent(decode, tail))
    ensures var raw, ps := SseLaws.StreamText(SseLaws.EventFrames(events + tail)), Datas(Sent(decode, events));
            var live, captured := Live(decode, raw), Reassembled(Captured(decode, raw));
            SentText(live.sent) == live.content
            && (captured.Success? <==> Readable(Sent(decode, events)))
            && (captured.Success? ==>
                  (live.content == captured.value.text <==> TextOnlyInTextDeltas(ps))
                  && (live.inputTokens == captured.value.inputTokens <==> Settled(InputCounts(ps)))
                  && (live.outputTokens == captured.value.outputTokens <==> Settled(OutputCounts(ps))))
  {
    SseLaws.EventStreamsAgree(events + tail);
    SentIsRead(decode, events + tail);
    SentOfConcat(decode, events, tail);
    LiveAgreesWithCapture(Sent(decode, events), Sent(decode, tail));
  }

  lemma NoNameNoKind()
    ensures KindNamed("") == OtherKind("")
  {
    assert |""| == 0 && |"message_start"| > 0 && |"content_block_start"| > 0 && |"content_block_delta"| > 0;
    assert |"content_block_stop"| > 0 && |"message_delta"| > 0 && |"message_stop"| > 0;
  }

  lemma PassedOver(decode: string -> Payload, data: string)
    ensures Reassembled(Read(decode, [Sse.StreamChunk("", data)])) == Reassembled([])
  {
    var chunks := [Sse.StreamChunk("", data)];
    NoNameNoKind();
    assert chunks[..0] == [] && Read(decode, chunks) == [] + [Chunk(OtherKind(""), decode(data))];
    assert Read(decode, chunks)[..0] == [];
  }

  lemma OneTextLive(decode: string -> Payload, data: string)
    requires decode(data).Decoded? && decode(data).kind == BlockDelta && decode(data).deltaType == TextDelta
    ensures Relayed(Decode(decode, [data])).content == decode(data).text
  {
    assert Decode(decode, [data]) == [decode(data)] by { assert [data][..0] == []; }
    LiveTotals([decode(data)]);
    OneChunk(decode(data));
  }

  /** Text in an event without a name is relayed; reassembly passes the event over. */
  lemma UnnamedEventDiffers(decode: string -> Payload, data: string)
    requires SseLaws.WellFormed(SseLaws.Event("", data))
    requires decode(data).Decoded? && decode(data).kind == BlockDelta && decode(data).deltaType == TextDelta
    ensures var raw := SseLaws.StreamText(SseLaws.EventFrames([SseLaws.Event("", data)]));
            Live(decode, raw).content == decode(data).text
            && Reassembled(Captured(decode, raw)) == Reassembled([])
  {
    var e := SseLaws.Event("", data);
    SseLaws.EventStreamsAgree([e]);
    assert [] + [e] == [e];
    ExpectedOfSnoc([], e);
    assert SseLaws.Datas([e]) == [data] && SseLaws.ExpectedChunks([e]) == [Sse.StreamChunk("", "data: " + data)];
    OneTextLive(decode, data);
    PassedOver(decode, "data: " + data);
  }
}
