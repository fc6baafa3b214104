/** When the live relay and the capture path report the same response. */
module StreamingLaws {
  import opened Streaming

  // ---------------------------------------------------------------- what a stream says

  function InputOf(p: Payload): seq<int> {
    if p.Decoded? && p.kind == MessageStart then [p.inputTokens] else []
  }

  function OutputOf(p: Payload): seq<int> {
    if p.Decoded? && p.kind == MessageDelta then [p.outputTokens] else []
  }

  function TextOf(p: Payload, all: bool): string {
    if p.Decoded? && p.kind == BlockDelta && (all || p.deltaType == TextDelta) then p.text else ""
  }

  function InputCounts(ps: seq<Payload>): seq<int> {
    if ps == [] then [] else InputCounts(ps[..|ps| - 1]) + InputOf(ps[|ps| - 1])
  }

  function OutputCounts(ps: seq<Payload>): seq<int> {
    if ps == [] then [] else OutputCounts(ps[..|ps| - 1]) + OutputOf(ps[|ps| - 1])
  }

  /** The text of every content delta, or only of those that are text deltas. */
  function DeltaText(ps: seq<Payload>, all: bool): string {
    if ps == [] then "" else DeltaText(ps[..|ps| - 1], all) + TextOf(ps[|ps| - 1], all)
  }

  function LastCount(counts: seq<int>): int {
    if counts == [] then 0 else counts[|counts| - 1]
  }

  function LastPositive(counts: seq<int>): int {
    if counts == [] then 0
    else if counts[|counts| - 1] > 0 then counts[|counts| - 1]
    else LastPositive(counts[..|counts| - 1])
  }

  function SentText(sent: seq<Notification>): string {
    if sent == [] then ""
    else
      var last := sent[|sent| - 1];
      SentText(sent[..|sent| - 1]) + if last.TokenDelta? then last.text else ""
  }

  predicate Stops(p: Payload) {
    p.Decoded? && p.kind == MessageStop
  }

  /** No event stops the relay before the end; payloads that do not decode are skipped. */
  predicate Unstopped(ps: seq<Payload>) {
    forall p | p in ps :: !Stops(p)
  }

  // ---------------------------------------------------------------- each path in those terms

  function Bump(count: int, counts: seq<int>): int {
    if counts != [] && counts[0] > 0 then counts[0] else count
  }

  lemma OnPayloadTotals(st: RelayState, p: Payload)
    requires st.progress == Reading && !Stops(p)
    ensures var next := OnPayload(st, p);
            next.progress == Reading
            && next.content == st.content + TextOf(p, false)
            && SentText(next.sent) == SentText(st.sent) + TextOf(p, false)
            && next.inputTokens == Bump(st.inputTokens, InputOf(p))
            && next.outputTokens == Bump(st.outputTokens, OutputOf(p))
  {
    var next := OnPayload(st, p);
    if next.sent != st.sent {
      assert next.sent[..|st.sent|] == st.sent;
    }
  }

  ghost predicate NoEmptyDelta(sent: seq<Notification>) {
    forall n :: n in sent && n.TokenDelta? ==> n.text != ""
  }

  lemma PayloadSendsNoEmpty(st: RelayState, p: Payload)
    requires NoEmptyDelta(st.sent)
    ensures NoEmptyDelta(OnPayload(st, p).sent)
  {
    var next := OnPayload(st, p);
    if next.sent != st.sent {
      assert next.sent == st.sent + [next.sent[|st.sent|]];
    }
  }

  /** The client never gets a delta without text. */
  lemma {:induction false} NoEmptyDeltas(ps: seq<Payload>)
    ensures NoEmptyDelta(Relayed(ps).sent)
  {
    if ps != [] {
      NoEmptyDeltas(ps[..|ps| - 1]);
      PayloadSendsNoEmpty(Relayed(ps[..|ps| - 1]), ps[|ps| - 1]);
    }
  }

  lemma LastPositiveOfConcat(counts: seq<int>, more: seq<int>)
    requires |more| <= 1
    ensures LastPositive(counts + more) == Bump(LastPositive(counts), more)
  {
    if more == [] {
      assert counts + more == counts;
    } else {
      assert (counts + more)[..|counts|] == counts;
    }
  }

  lemma {:induction false} LiveTotals(ps: seq<Payload>)
    requires Unstopped(ps)
    ensures var st := Relayed(ps);
            st.progress == Reading
            && st.content == DeltaText(ps, false) && SentText(st.sent) == st.content
            && st.inputTokens == LastPositive(InputCounts(ps))
            && st.outputTokens == LastPositive(OutputCounts(ps))
  {
    if ps != [] {
      var init, last := ps[..|ps| - 1], ps[|ps| - 1];
      assert last in ps;
      LiveTotals(init);
      OnPayloadTotals(Relayed(init), last);
      LastPositiveOfConcat(InputCounts(init), InputOf(last));
      LastPositiveOfConcat(OutputCounts(init), OutputOf(last));
    }
  }

  /** The payloads of captured chunks. */
  function Datas(chunks: seq<Chunk>): seq<Payload> {
    if chunks == [] then [] else Datas(chunks[..|chunks| - 1]) + [chunks[|chunks| - 1].data]
  }

  /** Reassembly decodes only the payloads of chunks under these three names. */
  predicate IsRead(c: Chunk) {
    c.eventType == MessageStart || c.eventType == BlockDelta || c.eventType == MessageDelta
  }

  predicate Readable(chunks: seq<Chunk>) {
    forall c | c in chunks :: IsRead(c) ==> c.data.Decoded?
  }

  /** Whatever the names, reassembly succeeds exactly when every payload it reads decodes. */
  lemma {:induction false} ReassemblesExactly(chunks: seq<Chunk>)
    ensures Reassembled(chunks).Success? <==> Readable(chunks)
  {
    if chunks != [] {
      var init, last := chunks[..|chunks| - 1], chunks[|chunks| - 1];
      assert chunks == init + [last];
      ReassemblesExactly(init);
    }
  }

  /** A chunk whose payload decodes is named by the payload's own type. */
  predicate OwnNames(chunks: seq<Chunk>) {
    forall c | c in chunks :: c.data.Decoded? ==> c.eventType == c.data.kind
  }

  lemma ReadChunkTotals(r: Response, c: Chunk)
    requires (c.data.Decoded? ==> c.eventType == c.data.kind) && (IsRead(c) ==> c.data.Decoded?)
    ensures ReadChunk(r, c).Success?
    ensures var next := ReadChunk(r, c).value;
            next.text == r.text + TextOf(c.data, true)
            && next.inputTokens == LastCount([r.inputTokens] + InputOf(c.data))
            && next.outputTokens == LastCount([r.outputTokens] + OutputOf(c.data))
  {
    assert r.text + "" == r.text;
  }

  lemma LastCountOfConcat(counts: seq<int>, more: seq<int>)
    requires |more| <= 1
    ensures LastCount([LastCount(counts)] + more) == LastCount(counts + more)
  {
    assert counts + [] == counts;
  }

  lemma {:induction false} CapturedTotals(chunks: seq<Chunk>)
    requires OwnNames(chunks) && Readable(chunks)
    ensures Reassembled(chunks).Success?
    ensures var r, ps := Reassembled(chunks).value, Datas(chunks);
            r.text == DeltaText(ps, true)
            && r.inputTokens == LastCount(InputCounts(ps)) && r.outputTokens == LastCount(OutputCounts(ps))
  {
    if chunks != [] {
      var init, last := chunks[..|chunks| - 1], chunks[|chunks| - 1];
      assert chunks == init + [last] && last in chunks;
      CapturedTotals(init);
      ReadChunkTotals(Reassembled(init).value, last);
      DatasOfSnoc(init, last);
      LastCountOfConcat(InputCounts(Datas(init)), InputOf(last.data));
      LastCountOfConcat(OutputCounts(Datas(init)), OutputOf(last.data));
    }
  }

  lemma DatasOfSnoc(chunks: seq<Chunk>, c: Chunk)
    ensures Datas(chunks + [c]) == Datas(chunks) + [c.data]
    ensures DeltaText(Datas(chunks + [c]), true) == DeltaText(Datas(chunks), true) + TextOf(c.data, true)
    ensures InputCounts(Datas(chunks + [c])) == InputCounts(Datas(chunks)) + InputOf(c.data)
    ensures OutputCounts(Datas(chunks + [c])) == OutputCounts(Datas(chunks)) + OutputOf(c.data)
  {
    assert (chunks + [c])[..|chunks|] == chunks;
    assert (Datas(chunks) + [c.data])[..|Datas(chunks)|] == Datas(chunks);
  }

  /** Model and input count come from the last chunk named message_start; without one they are empty. */
  lemma {:induction false} LastStartSays(chunks: seq<Chunk>, i: int)
    requires Readable(chunks) && -1 <= i < |chunks| && (i >= 0 ==> chunks[i].eventType == MessageStart)
    requires forall j :: i < j < |chunks| ==> chunks[j].eventType != MessageStart
    ensures Reassembled(chunks).Success?
    ensures var r := Reassembled(chunks).value;
            if i < 0 then r.model == "" && r.inputTokens == 0
            else r.model == chunks[i].data.model && r.inputTokens == chunks[i].data.inputTokens
  {
    ReassemblesExactly(chunks);
    if chunks != [] {
      var n := |chunks| - 1;
      assert chunks[n] in chunks && forall c :: c in chunks[..n] ==> c in chunks;
      if i < n {
        LastStartSays(chunks[..n], i);
      } else {
        ReassemblesExactly(chunks[..n]);
      }
    }
  }

  /** Stop reason and output count come from the last chunk named message_delta. */
  lemma {:induction false} LastDeltaSays(chunks: seq<Chunk>, i: int)
    requires Readable(chunks) && -1 <= i < |chunks| && (i >= 0 ==> chunks[i].eventType == MessageDelta)
    requires forall j :: i < j < |chunks| ==> chunks[j].eventType != MessageDelta
    ensures Reassembled(chunks).Success?
    ensures var r := Reassembled(chunks).value;
            if i < 0 then r.stopReason == "" && r.outputTokens == 0
            else r.stopReason == chunks[i].data.stopReason && r.outputTokens == chunks[i].data.outputTokens
  {
    ReassemblesExactly(chunks);
    if chunks != [] {
      var n := |chunks| - 1;
      assert chunks[n] in chunks && forall c :: c in chunks[..n] ==> c in chunks;
      if i < n {
        LastDeltaSays(chunks[..n], i);
      } else {
        ReassemblesExactly(chunks[..n]);
      }
    }
  }

  lemma ReassembledOfNext(chunks: seq<Chunk>, i: nat)
    requires i < |chunks| && Reassembled(chunks[..i]).Success?
    ensures Reassembled(chunks[..i + 1]) == ReadChunk(Reassembled(chunks[..i]).value, chunks[i])
  {
    assert chunks[..i + 1][..i] == chunks[..i];
  }

  lemma BadChunkFails(r: Response, c: Chunk)
    requires IsRead(c) && c.data.Malformed?
    ensures ReadChunk(r, c).Failure?
  {
  }

  /** The error of a stream that does not reassemble is that of its first bad chunk. */
  lemma FirstBadChunkFails(chunks: seq<Chunk>, i: nat)
    requires i < |chunks| && Readable(chunks[..i]) && IsRead(chunks[i]) && chunks[i].data.Malformed?
    ensures Reassembled(chunks[..i]).Success? && Reassembled(chunks).Failure?
    ensures Reassembled(chunks) == ReadChunk(Reassembled(chunks[..i]).value, chunks[i])
  {
    ReassemblesExactly(chunks[..i]);
    ReassembledOfNext(chunks, i);
    BadChunkFails(Reassembled(chunks[..i]).value, chunks[i]);
    FailureStays(chunks, i + 1);
  }

  // ---------------------------------------------------------------- where they differ

  /** The relay keeps the last positive count, the capture path the last one. */
  predicate Settled(counts: seq<int>) {
    counts == [] || LastCount(counts) > 0 || (LastCount(counts) == 0 && forall c | c in counts :: c <= 0)
  }

  lemma {:induction false} LastPositiveIsThere(counts: seq<int>)
    ensures LastPositive(counts) == 0 || (LastPositive(counts) > 0 && LastPositive(counts) in counts)
    ensures LastPositive(counts) == 0 ==> forall c :: c in counts ==> c <= 0
  {
    if counts != [] {
      var init := counts[..|counts| - 1];
      LastPositiveIsThere(init);
      assert counts == init + [counts[|counts| - 1]];
    }
  }

  lemma SettledExact(counts: seq<int>)
    ensures LastPositive(counts) == LastCount(counts) <==> Settled(counts)
  {
    LastPositiveIsThere(counts);
  }

  predicate TextOnlyInTextDeltas(ps: seq<Payload>) {
    forall p | p in ps ::
      p.Decoded? && p.kind == BlockDelta && p.deltaType != TextDelta ==> p.text == ""
  }

  lemma {:induction false} DeltaTextExact(ps: seq<Payload>)
    ensures |DeltaText(ps, false)| <= |DeltaText(ps, true)|
    ensures |DeltaText(ps, false)| == |DeltaText(ps, true)| <==> TextOnlyInTextDeltas(ps)
    ensures DeltaText(ps, false) == DeltaText(ps, true) <==> TextOnlyInTextDeltas(ps)
  {
    if ps != [] {
      var init, last := ps[..|ps| - 1], ps[|ps| - 1];
      assert ps == init + [last];
      DeltaTextExact(init);
    }
  }

  /** A final message_stop leaves the relay with what it had, and adds nothing to capture. */
  lemma StopChangesNothing(ps: seq<Payload>, stop: Payload)
    requires Unstopped(ps) && Stops(stop)
    ensures Relayed(ps + [stop]) == Relayed(ps).(progress := Stopped(""))
  {
    LiveTotals(ps);
    assert (ps + [stop])[..|ps|] == ps;
  }

  /** The stream ends with a message_stop, or just ends. */
  predicate EndsStream(tail: seq<Chunk>) {
    tail == [] || (|tail| == 1 && Stops(tail[0].data))
  }

  lemma OwnNamesOfFront(chunks: seq<Chunk>, tail: seq<Chunk>)
    requires OwnNames(chunks + tail)
    ensures OwnNames(chunks) && OwnNames(tail)
  {
    forall c | c in chunks || c in tail ensures c.data.Decoded? ==> c.eventType == c.data.kind {
      assert c in chunks + tail;
    }
  }

  lemma StopIsPassedOver(chunks: seq<Chunk>, stop: Chunk)
    requires OwnNames([stop]) && Stops(stop.data)
    ensures Reassembled(chunks + [stop]) == Reassembled(chunks)
  {
    assert stop in [stop] && (chunks + [stop])[..|chunks|] == chunks;
  }

  lemma StopEndsLive(chunks: seq<Chunk>, stop: Chunk)
    requires Unstopped(Datas(chunks)) && Stops(stop.data)
    ensures Relayed(Datas(chunks + [stop])) == Relayed(Datas(chunks)).(progress := Stopped(""))
  {
    DatasOfSnoc(chunks, stop);
    StopChangesNothing(Datas(chunks), stop.data);
  }

  lemma TailAddsNothing(chunks: seq<Chunk>, tail: seq<Chunk>)
    requires OwnNames(chunks + tail) && Unstopped(Datas(chunks)) && EndsStream(tail)
    ensures OwnNames(chunks) && Reassembled(chunks + tail) == Reassembled(chunks)
    ensures var live, before := Relayed(Datas(chunks + tail)), Relayed(Datas(chunks));
            live == before.(progress := live.progress)
  {
    OwnNamesOfFront(chunks, tail);
    if tail == [] {
      assert chunks + tail == chunks;
    } else {
      assert tail == [tail[0]];
      StopIsPassedOver(chunks, tail[0]);
      StopEndsLive(chunks, tail[0]);
    }
  }

  /**
   Live against captured, for a stream of chunks named by their types that ends with message_stop or
   just ends. Reassembly succeeds exactly when every payload it reads decodes. Then the texts agree
   exactly when only text deltas carry text, and each token total exactly when its counts are
   settled. The texts sent to the client always add up to the relay's content.
   */
  lemma LiveAgreesWithCapture(chunks: seq<Chunk>, tail: seq<Chunk>)
    requires OwnNames(chunks + tail) && Unstopped(Datas(chunks)) && EndsStream(tail)
    ensures var live, captured, ps := Relayed(Datas(chunks + tail)), Reassembled(chunks + tail), Datas(chunks);
            SentText(live.sent) == live.content
            && (captured.Success? <==> Readable(chunks))
            && (captured.Success? ==>
                  (live.content == captured.value.text <==> TextOnlyInTextDeltas(ps))
                  && (live.inputTokens == captured.value.inputTokens <==> Settled(InputCounts(ps)))
                  && (live.outputTokens == captured.value.outputTokens <==> Settled(OutputCounts(ps))))
  {
    TailAddsNothing(chunks, tail);
    LiveTotals(Datas(chunks));
    ReassemblesExactly(chunks);
    if Readable(chunks) {
      CapturedTotals(chunks);
      SettledExact(InputCounts(Datas(chunks)));
      SettledExact(OutputCounts(Datas(chunks)));
      DeltaTextExact(Datas(chunks));
    }
  }

  /** One message_start with a count, and output counts that never decrease, settle both totals. */
  lemma OrdinaryCountsSettle(inputs: seq<int>, outputs: seq<int>)
    requires |inputs| == 1 && inputs[0] >= 0
    requires forall i, j :: 0 <= i <= j < |outputs| ==> 0 <= outputs[i] <= outputs[j]
    ensures Settled(inputs) && Settled(outputs)
  {
    if outputs != [] && LastCount(outputs) == 0 {
      forall c | c in outputs ensures c <= 0 {
        var i :| 0 <= i < |outputs| && outputs[i] == c;
        assert outputs[i] <= outputs[|outputs| - 1];
      }
    }
  }

  // ---------------------------------------------------------------- inputs on which they differ

  /** A payload under its own name. */
  function Named(p: Payload): Chunk
    requires p.Decoded?
  {
    Chunk(p.kind, p)
  }

  lemma OneChunk(p: Payload)
    requires p.Decoded?
    ensures Datas([Named(p)]) == [p]
    ensures InputCounts([p]) == InputOf(p) && OutputCounts([p]) == OutputOf(p)
    ensures DeltaText([p], true) == TextOf(p, true) && DeltaText([p], false) == TextOf(p, false)
  {
    assert [Named(p)][..0] == [] && [] + [p] == [p] && [p][..0] == [];
    assert [] + InputOf(p) == InputOf(p) && [] + OutputOf(p) == OutputOf(p);
    assert "" + TextOf(p, true) == TextOf(p, true) && "" + TextOf(p, false) == TextOf(p, false);
  }

  lemma TwoChunks(a: Payload, b: Payload)
    requires a.Decoded? && b.Decoded?
    ensures Datas([Named(a), Named(b)]) == [a, b]
    ensures InputCounts([a, b]) == InputOf(a) + InputOf(b) && OutputCounts([a, b]) == OutputOf(a) + OutputOf(b)
  {
    OneChunk(a);
    assert [Named(a), Named(b)][..1] == [Named(a)] && [a, b][..1] == [a];
  }

  /** Text in a delta of another type is captured and not relayed. */
  lemma OtherTextDiffers(deltaName: string, text: string)
    requires text != ""
    ensures var p := NOTHING.(kind := BlockDelta, deltaType := OtherDelta(deltaName), text := text);
            Relayed([p]).content == "" && Reassembled([Named(p)]).Success?
            && Reassembled([Named(p)]).value.text == text
  {
    var p := NOTHING.(kind := BlockDelta, deltaType := OtherDelta(deltaName), text := text);
    OneChunk(p);
    LiveTotals([p]);
    CapturedTotals([Named(p)]);
  }

  lemma LastOfTwo(n: int)
    requires n > 0
    ensures LastPositive([n] + [0]) == n && LastCount([n] + [0]) == 0
  {
    assert ([n] + [0])[..1] == [n];
  }

  /** After a last count of zero the relay still has the count before it, the capture has zero. */
  lemma ZeroCountDiffers(n: int)
    requires n > 0
    ensures var a, b := NOTHING.(kind := MessageDelta, outputTokens := n), NOTHING.(kind := MessageDelta);
            Relayed([a, b]).outputTokens == n && Reassembled([Named(a), Named(b)]).Success?
            && Reassembled([Named(a), Named(b)]).value.outputTokens == 0
  {
    var a, b := NOTHING.(kind := MessageDelta, outputTokens := n), NOTHING.(kind := MessageDelta);
    TwoChunks(a, b);
    LiveTotals([a, b]);
    CapturedTotals([Named(a), Named(b)]);
    LastOfTwo(n);
  }

  /** Likewise for a second message_start without a count. */
  lemma SecondStartDiffers(n: int)
    requires n > 0
    ensures var a, b := NOTHING.(kind := MessageStart, inputTokens := n), NOTHING.(kind := MessageStart);
            Relayed([a, b]).inputTokens == n && Reassembled([Named(a), Named(b)]).Success?
            && Reassembled([Named(a), Named(b)]).value.inputTokens == 0
  {
    var a, b := NOTHING.(kind := MessageStart, inputTokens := n), NOTHING.(kind := MessageStart);
    TwoChunks(a, b);
    LiveTotals([a, b]);
    CapturedTotals([Named(a), Named(b)]);
    LastOfTwo(n);
  }

  /** A delta that does not decode is skipped by the relay; for capture all is lost. */
  lemma MalformedChunkFails(text: string)
    ensures var p := NOTHING.(kind := BlockDelta, deltaType := TextDelta, text := text);
            var chunks := [Named(p)] + [Chunk(BlockDelta, Malformed)];
            Relayed(Datas(chunks)).content == text && Reassembled(chunks).Failure?
  {
    var p := NOTHING.(kind := BlockDelta, deltaType := TextDelta, text := text);
    var chunks := [Named(p)] + [Chunk(BlockDelta, Malformed)];
    OneChunk(p);
    DatasOfSnoc([Named(p)], Chunk(BlockDelta, Malformed));
    LiveTotals([p]);
    assert ([p] + [Malformed])[..1] == [p];
    ReassemblesExactly(chunks);
    assert chunks[1] in chunks && IsRead(chunks[1]);
  }
}
