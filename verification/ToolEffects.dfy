/**
 Tool calls take effect once. The relay never closes a tool builder, so the end of any later block
 sends the last call again; the dispatcher's duplicate check absorbs the repeats.
 */
module ToolEffects {
  import opened Messages
  import opened Streaming
  import Dispatcher

  /** A content block: a tool call with its partial inputs, or other events, ended or not. */
  datatype Block = Tool(id: string, name: string, input: string, partials: seq<string>)
                 | Other(events: seq<Payload>, ended: bool)

  /** Events that neither open, feed nor end a tool call, nor stop the relay. */
  predicate Quiet(p: Payload) {
    p.Decoded? ==>
      p.kind != BlockStop && p.kind != MessageStop && (p.kind == BlockStart ==> !p.isToolUse)
      && (p.kind == BlockDelta ==> p.deltaType != InputJsonDelta)
  }

  predicate WellFormed(b: Block) {
    b.Other? ==> forall p | p in b.events :: Quiet(p)
  }

  function Join(parts: seq<string>): string {
    if parts == [] then "" else Join(parts[..|parts| - 1]) + parts[|parts| - 1]
  }

  function Partials(parts: seq<string>): seq<Payload> {
    seq(|parts|, i requires 0 <= i < |parts| =>
      NOTHING.(kind := BlockDelta, deltaType := InputJsonDelta, partialJson := parts[i]))
  }

  const END := NOTHING.(kind := BlockStop)

  function Opening(b: Block): Payload
    requires b.Tool?
  {
    NOTHING.(kind := BlockStart, isToolUse := true, blockId := b.id, blockName := b.name, blockInput := b.input)
  }

  function BlockEvents(b: Block): seq<Payload> {
    match b
    case Tool(_, _, _, partials) => [Opening(b)] + Partials(partials) + [END]
    case Other(events, ended) => events + if ended then [END] else []
  }

  function StreamOf(blocks: seq<Block>): seq<Payload> {
    if blocks == [] then [] else StreamOf(blocks[..|blocks| - 1]) + BlockEvents(blocks[|blocks| - 1])
  }

  /** The call a tool block makes: its opening input and all its partial inputs. */
  function Made(b: Block): ToolCall
    requires b.Tool?
  {
    ToolCall(b.id, b.name, b.input + Join(b.partials))
  }

  /** The calls the model made. */
  function Calls(blocks: seq<Block>): seq<ToolCall> {
    if blocks == [] then []
    else
      var last := blocks[|blocks| - 1];
      Calls(blocks[..|blocks| - 1]) + if last.Tool? then [Made(last)] else []
  }

  function LastOf(calls: seq<ToolCall>): seq<ToolCall> {
    if calls == [] then [] else [calls[|calls| - 1]]
  }

  /** The calls the relay sends: at the end of every block, the last call so far. */
  function Emitted(blocks: seq<Block>): seq<ToolCall> {
    if blocks == [] then []
    else
      var last := blocks[|blocks| - 1];
      Emitted(blocks[..|blocks| - 1]) + if last.Tool? || last.ended then LastOf(Calls(blocks)) else []
  }

  // ---------------------------------------------------------------- the relay emits that list

  function Notes(sent: seq<Notification>): seq<ToolCall> {
    if sent == [] then []
    else
      var last := sent[|sent| - 1];
      Notes(sent[..|sent| - 1]) + if last.ToolCallNote? then [last.call] else []
  }

  lemma {:induction false} RelayedOfConcat(a: seq<Payload>, b: seq<Payload>)
    ensures Relayed(a + b) == Feed(Relayed(a), b)
  {
    if b == [] {
      assert a + b == a;
    } else {
      assert (a + b)[..|a + b| - 1] == a + b[..|b| - 1];
      RelayedOfConcat(a, b[..|b| - 1]);
    }
  }

  function Feed(st: RelayState, ps: seq<Payload>): RelayState {
    if ps == [] then st else OnPayload(Feed(st, ps[..|ps| - 1]), ps[|ps| - 1])
  }

  /** Still reading, with the same calls open, recorded and sent. */
  ghost predicate SameCalls(st: RelayState, end: RelayState) {
    end.progress == Reading && end.pending == st.pending && end.toolCalls == st.toolCalls
    && Notes(end.sent) == Notes(st.sent)
  }

  lemma QuietParses(p: Payload)
    requires Quiet(p)
    ensures var ev := ParseStreamEvent(p);
            ev.Failure? || ev.value.None? || ev.value.value.Text? || ev.value.value.Usage?
  {
  }

  lemma QuietOnEvent(st: RelayState, ev: StreamEvent)
    requires st.progress == Reading && (ev.Text? || ev.Usage?)
    ensures SameCalls(st, OnEvent(st, ev))
  {
    var end := OnEvent(st, ev);
    if ev.Text? {
      assert end.sent[..|st.sent|] == st.sent;
    }
  }

  lemma QuietEvent(st: RelayState, p: Payload)
    requires st.progress == Reading && Quiet(p)
    ensures SameCalls(st, OnPayload(st, p))
  {
    var ev := ParseStreamEvent(p);
    QuietParses(p);
    if ev.Success? && ev.value.Some? {
      QuietOnEvent(st, ev.value.value);
    }
  }

  lemma {:induction false} QuietEvents(st: RelayState, ps: seq<Payload>)
    requires st.progress == Reading && forall p :: p in ps ==> Quiet(p)
    ensures SameCalls(st, Feed(st, ps))
  {
    if ps != [] {
      var init, last := ps[..|ps| - 1], ps[|ps| - 1];
      assert last in ps;
      QuietEvents(st, init);
      QuietEvent(Feed(st, init), last);
    }
  }

  lemma {:induction false} PartialEvents(st: RelayState, parts: seq<string>)
    requires st.progress == Reading && st.pending != []
    ensures var top := |st.pending| - 1;
            Feed(st, Partials(parts)) ==
            st.(pending := st.pending[top := st.pending[top].(input := st.pending[top].input + Join(parts))])
  {
    if parts == [] {
      assert st.pending[|st.pending| - 1].input + "" == st.pending[|st.pending| - 1].input;
    } else {
      var init := parts[..|parts| - 1];
      PartialEvents(st, init);
      assert Partials(parts)[..|parts| - 1] == Partials(init);
      var top := |st.pending| - 1;
      var input, more := st.pending[top].input, parts[|parts| - 1];
      assert input + Join(init) + more == input + Join(parts);
      var before := Feed(st, Partials(init));
      assert before.pending[top := before.pending[top].(input := input + Join(parts))] ==
             st.pending[top := st.pending[top].(input := input + Join(parts))];
    }
  }

  lemma EndEvent(st: RelayState)
    requires st.progress == Reading
    ensures var end := OnPayload(st, END);
            end.progress == Reading && end.pending == st.pending
            && end.toolCalls == st.toolCalls + (if st.pending == [] then [] else [st.pending[|st.pending| - 1]])
            && Notes(end.sent) == Notes(st.sent) + (if st.pending == [] then [] else [st.pending[|st.pending| - 1]])
  {
    var end := OnPayload(st, END);
    if end.sent != st.sent {
      assert end.sent[..|st.sent|] == st.sent;
    }
  }

  lemma FeedOne(st: RelayState, p: Payload)
    ensures Feed(st, [p]) == OnPayload(st, p)
  {
    assert [p][..0] == [];
    assert Feed(st, []) == st;
  }

  lemma ToolBlock(st: RelayState, b: Block)
    requires st.progress == Reading && b.Tool?
    ensures var call := Made(b);
            var end := Feed(st, BlockEvents(b));
            end.progress == Reading && end.pending == st.pending + [call]
            && end.toolCalls == st.toolCalls + [call] && Notes(end.sent) == Notes(st.sent) + [call]
  {
    var start := OnPayload(st, Opening(b));
    FeedOne(st, Opening(b));
    FeedOfConcat(st, [Opening(b)], Partials(b.partials));
    PartialEvents(start, b.partials);
    var fed := Feed(st, [Opening(b)] + Partials(b.partials));
    FeedOfConcat(st, [Opening(b)] + Partials(b.partials), [END]);
    FeedOne(fed, END);
    EndEvent(fed);
  }

  lemma {:induction false} FeedOfConcat(st: RelayState, a: seq<Payload>, b: seq<Payload>)
    ensures Feed(st, a + b) == Feed(Feed(st, a), b)
  {
    if b == [] {
      assert a + b == a;
    } else {
      assert (a + b)[..|a + b| - 1] == a + b[..|b| - 1];
      FeedOfConcat(st, a, b[..|b| - 1]);
    }
  }

  lemma OtherBlock(st: RelayState, b: Block)
    requires st.progress == Reading && b.Other? && WellFormed(b)
    ensures var again := if b.ended && st.pending != [] then [st.pending[|st.pending| - 1]] else [];
            var end := Feed(st, BlockEvents(b));
            end.progress == Reading && end.pending == st.pending
            && end.toolCalls == st.toolCalls + again && Notes(end.sent) == Notes(st.sent) + again
  {
    QuietEvents(st, b.events);
    if b.ended {
      assert BlockEvents(b)[..|BlockEvents(b)| - 1] == b.events;
      EndEvent(Feed(st, b.events));
    } else {
      assert BlockEvents(b) == b.events;
    }
  }

  /** Over a stream of blocks the relay keeps every call open, and records and sends `Emitted`. */
  lemma {:induction false} RelayEmits(blocks: seq<Block>)
    requires forall b :: b in blocks ==> WellFormed(b)
    ensures var st := Relayed(StreamOf(blocks));
            st.progress == Reading && st.pending == Calls(blocks)
            && st.toolCalls == Emitted(blocks) && Notes(st.sent) == Emitted(blocks)
  {
    if blocks != [] {
      var init, last := blocks[..|blocks| - 1], blocks[|blocks| - 1];
      assert last in blocks;
      RelayEmits(init);
      var st := Relayed(StreamOf(init));
      RelayedOfConcat(StreamOf(init), BlockEvents(last));
      if last.Tool? {
        ToolBlock(st, last);
      } else {
        OtherBlock(st, last);
        assert Calls(init) + [] == Calls(init);
      }
    }
  }

  // ---------------------------------------------------------------- once each

  function Ids(calls: seq<ToolCall>): seq<string> {
    seq(|calls|, i requires 0 <= i < |calls| => calls[i].id)
  }

  predicate Distinct(ids: seq<string>) {
    ids == [] || (ids[|ids| - 1] !in ids[..|ids| - 1] && Distinct(ids[..|ids| - 1]))
  }

  /** A list without its adjacent repeats. */
  function Collapsed(calls: seq<ToolCall>): seq<ToolCall> {
    if calls == [] then []
    else
      var front, last := Collapsed(calls[..|calls| - 1]), calls[|calls| - 1];
      if front != [] && front[|front| - 1] == last then front else front + [last]
  }

  lemma CollapsedOfSnoc(calls: seq<ToolCall>, call: ToolCall)
    ensures Collapsed(calls + [call]) ==
            if LastOf(Collapsed(calls)) == [call] then Collapsed(calls) else Collapsed(calls) + [call]
  {
    assert (calls + [call])[..|calls|] == calls;
  }

  /** One block more: what was called and sent before it, and what it adds to both. */
  lemma LastBlock(blocks: seq<Block>) returns (calls: seq<ToolCall>, sent: seq<ToolCall>, call: seq<ToolCall>)
    requires blocks != []
    ensures calls == Calls(blocks[..|blocks| - 1]) && sent == Emitted(blocks[..|blocks| - 1])
    ensures |call| <= 1 && Emitted(blocks) == sent + call
    ensures blocks[|blocks| - 1].Tool? ==> |call| == 1 && Calls(blocks) == calls + call
    ensures blocks[|blocks| - 1].Other? ==>
              Calls(blocks) == calls && call == if blocks[|blocks| - 1].ended then LastOf(calls) else []
  {
    calls, sent := Calls(blocks[..|blocks| - 1]), Emitted(blocks[..|blocks| - 1]);
    call := if blocks[|blocks| - 1].Tool? then [Made(blocks[|blocks| - 1])]
            else if blocks[|blocks| - 1].ended then LastOf(calls) else [];
    assert calls + [] == calls;
  }

  lemma IdsOfSnoc(calls: seq<ToolCall>, call: ToolCall)
    ensures Ids(calls + [call]) == Ids(calls) + [call.id]
    ensures Distinct(Ids(calls + [call])) ==> call.id !in Ids(calls) && Distinct(Ids(calls))
  {
    assert Ids(calls + [call]) == Ids(calls) + [call.id];
    assert (Ids(calls) + [call.id])[..|calls|] == Ids(calls);
  }

  /** Without adjacent repeats, what the relay sends is what the model called. */
  lemma {:induction false} CollapsedEmitted(blocks: seq<Block>)
    requires Distinct(Ids(Calls(blocks)))
    ensures Collapsed(Emitted(blocks)) == Calls(blocks)
  {
    if blocks != [] {
      var calls, sent, call := LastBlock(blocks);
      if blocks[|blocks| - 1].Tool? {
        IdsOfSnoc(calls, call[0]);
        if calls != [] {
          assert Ids(calls)[|calls| - 1] != call[0].id;
        }
        assert call == [call[0]];
      }
      CollapsedEmitted(blocks[..|blocks| - 1]);
      if call != [] {
        assert call == [call[0]];
        CollapsedOfSnoc(sent, call[0]);
      } else {
        assert sent + [] == sent;
      }
    }
  }

  /** A block of another kind ends after a call was made. */
  ghost predicate Repeats(blocks: seq<Block>) {
    exists i :: 0 <= i < |blocks| && blocks[i].Other? && blocks[i].ended && Calls(blocks[..i]) != []
  }

  lemma RepeatsOfLast(blocks: seq<Block>)
    requires blocks != []
    ensures var init, last := blocks[..|blocks| - 1], blocks[|blocks| - 1];
            Repeats(blocks) <==> Repeats(init) || (last.Other? && last.ended && Calls(init) != [])
  {
    var init := blocks[..|blocks| - 1];
    assert forall i :: 0 <= i < |init| ==> blocks[..i] == init[..i];
  }

  /** The relay sends each call exactly once just when no other block ends after one. */
  lemma {:induction false} EmittedOnceExactly(blocks: seq<Block>)
    ensures |Emitted(blocks)| >= |Calls(blocks)|
    ensures Emitted(blocks) == Calls(blocks) <==> !Repeats(blocks)
    ensures |Emitted(blocks)| == |Calls(blocks)| <==> !Repeats(blocks)
  {
    if blocks != [] {
      var calls, sent, call := LastBlock(blocks);
      EmittedOnceExactly(blocks[..|blocks| - 1]);
      RepeatsOfLast(blocks);
      if sent != calls && blocks[|blocks| - 1].Tool? {
        assert |sent + call| != |calls + call|;
      }
    }
  }

  function Requests(calls: seq<ToolCall>, worlds: seq<Dispatcher.World>): seq<Dispatcher.Request>
    requires |worlds| == |calls|
  {
    seq(|calls|, i requires 0 <= i < |calls| =>
      Dispatcher.Request(Dispatcher.Call(calls[i].id, calls[i].name, calls[i].input), worlds[i]))
  }

  /** Handing one more call to the dispatcher, either a new one or the last again. */
  lemma OneMoreRequest(st: Dispatcher.State, calls: seq<ToolCall>, sent: seq<ToolCall>, call: ToolCall,
                       worlds: seq<Dispatcher.World>)
    requires Dispatcher.Valid(st) && |worlds| == |sent| + 1 && call.id != ""
    requires Dispatcher.Accepted(st, Requests(sent, worlds[..|sent|])) == Ids(calls)
    requires LastOf(calls) == [call] || (call.id !in st.seen && call.id !in Ids(calls))
    ensures Dispatcher.Accepted(st, Requests(sent + [call], worlds)) ==
            if LastOf(calls) == [call] then Ids(calls) else Ids(calls) + [call.id]
  {
    var rs := Requests(sent, worlds[..|sent|]);
    var r := Dispatcher.Request(Dispatcher.Call(call.id, call.name, call.input), worlds[|sent|]);
    assert Requests(sent + [call], worlds) == rs + [r];
    Dispatcher.NewOrRepeated(st, rs, r);
    if LastOf(calls) == [call] {
      assert Ids(calls)[|calls| - 1] == call.id;
    } else if calls != [] {
      assert Ids(calls)[|calls| - 1] in Ids(calls);
    }
  }

  /**
   Fed to the dispatcher in the order the relay sent them, whatever the modes, tools and outcomes, the
   calls pass the duplicate check once each and in order.
   */
  lemma {:induction false} EffectOnce(blocks: seq<Block>, st: Dispatcher.State, worlds: seq<Dispatcher.World>)
    requires |worlds| == |Emitted(blocks)| && Dispatcher.Valid(st)
    requires Distinct(Ids(Calls(blocks)))
    requires forall id :: id in Ids(Calls(blocks)) ==> id != "" && id !in st.seen
    ensures Dispatcher.Accepted(st, Requests(Emitted(blocks), worlds)) == Ids(Calls(blocks))
  {
    if blocks != [] {
      var calls, sent, call := LastBlock(blocks);
      SnocOfIds(calls, call, Calls(blocks));
      EffectOnce(blocks[..|blocks| - 1], st, worlds[..|sent|]);
      if call == [] {
        assert sent + call == sent && worlds[..|sent|] == worlds;
      } else {
        OneMoreRequest(st, calls, sent, call[0], worlds);
        assert call == [call[0]];
      }
    }
  }

  /** What a block adds is either new, with an id of its own, or the last call. */
  lemma SnocOfIds(calls: seq<ToolCall>, call: seq<ToolCall>, all: seq<ToolCall>)
    requires |call| <= 1 && Distinct(Ids(all))
    requires (all == calls && (call == [] || call == LastOf(calls))) || (|call| == 1 && all == calls + call)
    ensures Distinct(Ids(calls)) && forall id :: id in Ids(calls) ==> id in Ids(all)
    ensures call != [] ==> call[0].id in Ids(all)
    ensures call != [] && all == calls ==> LastOf(calls) == [call[0]] && Ids(calls) == Ids(all)
    ensures call != [] && all != calls ==>
              call[0].id !in Ids(calls) && Ids(all) == Ids(calls) + [call[0].id] && LastOf(calls) != [call[0]]
  {
    if call != [] {
      assert call == [call[0]];
      if all == calls {
        assert Ids(all)[|all| - 1] == call[0].id;
      } else {
        IdsOfSnoc(calls, call[0]);
        assert (Ids(calls) + [call[0].id])[|calls|] == call[0].id;
        assert calls != [] ==> Ids(calls)[|calls| - 1] in Ids(calls);
      }
    }
  }

  // ---------------------------------------------------------------- what the repeats cost

  /**
   Every call the relay sends is answered under its own id, so a repeat is answered again: the
   answers are one per call made exactly when no other block ends after one.
   */
  lemma RepeatsAreAnswered(blocks: seq<Block>, st: Dispatcher.State, worlds: seq<Dispatcher.World>)
    requires |worlds| == |Emitted(blocks)|
    ensures var posted := Dispatcher.PostedIds(Dispatcher.Run(st, Requests(Emitted(blocks), worlds)).posted);
            posted == Dispatcher.PostedIds(st.posted) + Ids(Emitted(blocks))
            && (posted == Dispatcher.PostedIds(st.posted) + Ids(Calls(blocks)) <==> !Repeats(blocks))
  {
    var rs, before := Requests(Emitted(blocks), worlds), Dispatcher.PostedIds(st.posted);
    Dispatcher.OneResultPerCall(st, rs);
    assert Dispatcher.RequestIds(rs) == Ids(Emitted(blocks));
    EmittedOnceExactly(blocks);
    if before + Ids(Emitted(blocks)) == before + Ids(Calls(blocks)) {
      assert |Ids(Emitted(blocks))| == |Ids(Calls(blocks))|;
    }
  }

  /** A text block that ends after a call: the call is sent, and answered, twice. */
  lemma TextAfterCallRepeats(b: Block)
    requires b.Tool?
    ensures var blocks := [b] + [Other([], true)];
            Repeats(blocks) && Calls(blocks) == [Made(b)] && Emitted(blocks) == [Made(b), Made(b)]
            && Relayed(StreamOf(blocks)).toolCalls == [Made(b), Made(b)]
  {
    var blocks := [b] + [Other([], true)];
    OneBlock(b);
    assert blocks[..1] == [b];
    assert blocks[1].Other? && blocks[1].ended && Calls(blocks[..1]) != [];
    assert Calls(blocks) == Calls([b]) + [];
    assert Emitted(blocks) == [Made(b)] + [Made(b)];
    RelayEmits(blocks);
  }

  lemma OneBlock(b: Block)
    requires b.Tool?
    ensures Calls([b]) == [Made(b)] && Emitted([b]) == [Made(b)]
  {
    assert [b][..0] == [] && [] + [Made(b)] == [Made(b)];
  }

  // ---------------------------------------------------------------- what input a call gets

  /** The same blocks, the tool calls opened without input: their calls have the joined parts alone. */
  function Unopened(blocks: seq<Block>): seq<Block> {
    seq(|blocks|, i requires 0 <= i < |blocks| => if blocks[i].Tool? then blocks[i].(input := "") else blocks[i])
  }

  ghost predicate OpensWithInput(blocks: seq<Block>) {
    exists b :: b in blocks && b.Tool? && b.input != ""
  }

  lemma UnopenedOfSnoc(blocks: seq<Block>, b: Block)
    ensures Unopened(blocks + [b]) == Unopened(blocks) + [if b.Tool? then b.(input := "") else b]
  {
  }

  lemma UnopenedMade(b: Block)
    requires b.Tool?
    ensures Made(b.(input := "")).input == Join(b.partials)
    ensures Made(b.(input := "")) == Made(b) <==> b.input == ""
  {
    assert "" + Join(b.partials) == Join(b.partials);
    assert |Made(b).input| == |b.input| + |Join(b.partials)|;
  }

  lemma {:induction false} SameLengths(blocks: seq<Block>)
    ensures |Calls(Unopened(blocks))| == |Calls(blocks)| && |Emitted(Unopened(blocks))| == |Emitted(blocks)|
  {
    if blocks != [] {
      var init, last := blocks[..|blocks| - 1], blocks[|blocks| - 1];
      SameLengths(init);
      UnopenedOfSnoc(init, last);
      assert init + [last] == blocks;
      assert Unopened(blocks)[..|init|] == Unopened(init);
    }
  }

  lemma {:induction false} EmittedInputs(blocks: seq<Block>)
    ensures Emitted(blocks) == Emitted(Unopened(blocks)) <==> !OpensWithInput(blocks)
  {
    if blocks != [] {
      var init, last := blocks[..|blocks| - 1], blocks[|blocks| - 1];
      assert init + [last] == blocks;
      UnopenedOfSnoc(init, last);
      assert Unopened(blocks)[..|init|] == Unopened(init);
      EmittedInputs(init);
      SameLengths(init);
      EmittedOfLast(init, last);
      EmittedOfLast(Unopened(init), if last.Tool? then last.(input := "") else last);
      if !OpensWithInput(init) {
        assert Unopened(init) == init;
      } else {
        assert exists b :: b in init && b.Tool? && b.input != "";
        assert Emitted(blocks)[..|Emitted(init)|] == Emitted(init);
        assert Emitted(Unopened(blocks))[..|Emitted(init)|] == Emitted(Unopened(init));
      }
      if last.Tool? {
        UnopenedMade(last);
        assert Emitted(blocks)[|Emitted(init)|] == Made(last);
        assert Emitted(Unopened(blocks))[|Emitted(init)|] == Made(last.(input := ""));
      }
    }
  }

  lemma EmittedOfLast(blocks: seq<Block>, b: Block)
    ensures Emitted(blocks + [b]) ==
            Emitted(blocks) + if b.Tool? then [Made(b)] else if b.ended then LastOf(Calls(blocks)) else []
  {
    assert (blocks + [b])[..|blocks|] == blocks;
    if b.Tool? {
      assert LastOf(Calls(blocks + [b])) == [Made(b)];
    } else {
      assert Calls(blocks) + [] == Calls(blocks);
    }
  }

  /** An unopened tool block makes a call with its partial inputs joined for input. */
  lemma UnopenedJoins(blocks: seq<Block>, i: nat)
    requires i < |blocks| && blocks[i].Tool?
    ensures Unopened(blocks)[i].Tool? && Made(Unopened(blocks)[i]).input == Join(blocks[i].partials)
  {
    UnopenedMade(blocks[i]);
  }

  /**
   Every call that the relay records has its partial inputs joined for input, exactly when no tool
   block opened with an input of its own.
   */
  lemma InputIsJoinedExactly(blocks: seq<Block>)
    requires forall b :: b in blocks ==> WellFormed(b)
    ensures Relayed(StreamOf(blocks)).toolCalls == Emitted(Unopened(blocks)) <==> !OpensWithInput(blocks)
    ensures forall i :: 0 <= i < |blocks| && blocks[i].Tool? ==>
                          Made(Unopened(blocks)[i]).input == Join(blocks[i].partials)
  {
    forall i | 0 <= i < |blocks| && blocks[i].Tool?
      ensures Made(Unopened(blocks)[i]).input == Join(blocks[i].partials)
    {
      UnopenedJoins(blocks, i);
    }
    assert Relayed(StreamOf(blocks)).toolCalls == Emitted(blocks) by { RelayEmits(blocks); }
    EmittedInputs(blocks);
  }

  lemma OneBlockRelayed(b: Block)
    requires b.Tool?
    ensures Relayed(StreamOf([b])).toolCalls == [Made(b)]
  {
    RelayEmits([b]);
    OneBlock(b);
  }

  lemma JoinOne(part: string)
    ensures Join([part]) == part
  {
    assert [part][..0] == [] && "" + part == part;
  }

  /** A block opened with an empty object, as the provider opens one: the object stays in front. */
  lemma EmptyObjectStays(id: string, name: string)
    ensures Relayed(StreamOf([Tool(id, name, "{}", ["{\"a\":1}"])])).toolCalls ==
            [ToolCall(id, name, "{}" + "{\"a\":1}")]
  {
    OneBlockRelayed(Tool(id, name, "{}", ["{\"a\":1}"]));
    JoinOne("{\"a\":1}");
  }
}
