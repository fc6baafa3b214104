/**
 One provider stream, twice: `Relay` accumulates it live, event by event through `ParseStreamEvent`
 (internal/runtime/streaming.go), and `ReassembleStream` rebuilds it from captured chunks
 (internal/provider/anthropic.go).
 */
module Streaming {
  import opened Wrappers
  import opened Messages

  /** An event's type: the JSON "type" of a payload, or the name a chunk was captured under. */
  datatype Kind = MessageStart | BlockStart | BlockDelta | BlockStop | MessageDelta | MessageStop
                | OtherKind(name: string)

  datatype DeltaType = TextDelta | InputJsonDelta | OtherDelta(name: string)

  /**
   A decoded event payload: the fields either reader looks at, zero where the JSON has none.
   `Malformed` stands for bytes that do not decode.
   */
  datatype Payload =
    | Malformed
    | Decoded(kind: Kind, model: string, inputTokens: int, isToolUse: bool, blockId: string, blockName: string,
              blockInput: string, deltaType: DeltaType, text: string, partialJson: string, stopReason: string,
              outputTokens: int)

  const NOTHING := Decoded(OtherKind(""), "", 0, false, "", "", "", OtherDelta(""), "", "", "", 0)

  // ---------------------------------------------------------------- one live event

  datatype StreamEvent =
    | Text(content: string)
    | ToolCallStart(id: string, name: string, input: string)
    | ToolCallDelta(partial: string)
    | ToolCallEnd
    | Usage(inputTokens: int, outputTokens: int)
    | Done
    | StreamError(message: string)

  /** None for the events the relay skips; a failure where the payload does not decode. */
  function ParseStreamEvent(p: Payload): Result<Option<StreamEvent>, string> {
    match p
    case Malformed => Failure("parse stream event")
    case Decoded(_, _, _, _, _, _, _, _, _, _, _, _) =>
      match p.kind
      case BlockDelta =>
        Success(if p.deltaType == TextDelta then (if p.text == "" then None else Some(Text(p.text)))
                else if p.deltaType == InputJsonDelta then Some(ToolCallDelta(p.partialJson))
                else None)
      case BlockStart =>
        Success(if p.isToolUse then Some(ToolCallStart(p.blockId, p.blockName, p.blockInput)) else None)
      case BlockStop => Success(Some(ToolCallEnd))
      case MessageDelta => Success(Some(Usage(0, p.outputTokens)))
      case MessageStart => Success(if p.inputTokens == 0 then None else Some(Usage(p.inputTokens, 0)))
      case MessageStop => Success(Some(Done))
      case OtherKind(_) => Success(None)
  }

  // ---------------------------------------------------------------- the relay

  datatype Notification =
    | TokenDelta(text: string)
    | ToolCallNote(call: ToolCall)
    | TurnComplete(finalInput: int, finalOutput: int, cancelled: bool)
    | ErrorNote(message: string)

  datatype Progress = Reading | Stopped(error: string)

  /** The loop's variables: the accumulated response, the open tool builders and what was sent. */
  datatype RelayState = RelayState(content: string, toolCalls: seq<ToolCall>, inputTokens: int, outputTokens: int,
                                   pending: seq<ToolCall>, sent: seq<Notification>, progress: Progress)

  const START := RelayState("", [], 0, 0, [], [], Reading)

  function OnEvent(st: RelayState, ev: StreamEvent): RelayState {
    match ev
    case Text(content) => st.(content := st.content + content, sent := st.sent + [TokenDelta(content)])
    case ToolCallStart(id, name, input) => st.(pending := st.pending + [ToolCall(id, name, input)])
    case ToolCallDelta(partial) =>
      if st.pending == [] then st
      else
        var top := |st.pending| - 1;
        st.(pending := st.pending[top := st.pending[top].(input := st.pending[top].input + partial)])
    case ToolCallEnd =>
      if st.pending == [] then st
      else
        var call := st.pending[|st.pending| - 1];
        st.(toolCalls := st.toolCalls + [call], sent := st.sent + [ToolCallNote(call)])
    case Usage(input, output) =>
      st.(inputTokens := if input > 0 then input else st.inputTokens,
      outputTokens := if output > 0 then output else st.outputTokens)
    case Done => st.(progress := Stopped(""))
    case StreamError(message) => st.(progress := Stopped(message))
  }

  function OnPayload(st: RelayState, p: Payload): RelayState {
    if st.progress.Stopped? then st
    else match ParseStreamEvent(p)
      case Success(Some(ev)) => OnEvent(st, ev)
      case _ => st
  }

  /** The relay's state after reading these payloads. */
  function Relayed(ps: seq<Payload>): RelayState {
    if ps == [] then START else OnPayload(Relayed(ps[..|ps| - 1]), ps[|ps| - 1])
  }

  function Min(a: nat, b: nat): nat {
    if a < b then a else b
  }

  /** What stopped the stream; `cancelAt` is the round of the loop that finds the context done. */
  function StreamErr(ps: seq<Payload>, readErr: string, cancelAt: nat): string {
    var st := Relayed(ps[..Min(cancelAt, |ps|)]);
    if st.progress.Stopped? then st.progress.error else if cancelAt <= |ps| then "cancelled" else readErr
  }

  /** The context is found done before any event stops the relay. */
  predicate DoneFirst(ps: seq<Payload>, cancelAt: nat) {
    cancelAt <= |ps| && Relayed(ps[..cancelAt]).progress.Reading?
  }

  function Completions(sent: seq<Notification>): nat {
    if sent == [] then 0
    else Completions(sent[..|sent| - 1]) + if sent[|sent| - 1].TurnComplete? then 1 else 0
  }

  function ErrorNotes(sent: seq<Notification>): nat {
    if sent == [] then 0
    else ErrorNotes(sent[..|sent| - 1]) + if sent[|sent| - 1].ErrorNote? then 1 else 0
  }

  lemma CountsOfSnoc(sent: seq<Notification>, n: Notification)
    ensures Completions(sent + [n]) == Completions(sent) + if n.TurnComplete? then 1 else 0
    ensures ErrorNotes(sent + [n]) == ErrorNotes(sent) + if n.ErrorNote? then 1 else 0
  {
    assert (sent + [n])[..|sent|] == sent;
  }

  lemma PayloadAnnouncesNothing(st: RelayState, p: Payload)
    ensures var next := OnPayload(st, p);
            Completions(next.sent) == Completions(st.sent) && ErrorNotes(next.sent) == ErrorNotes(st.sent)
            && (next.progress.Stopped? ==> next.progress == st.progress || next.progress.error == "")
  {
    var next := OnPayload(st, p);
    if next.sent != st.sent {
      assert next.sent == st.sent + [next.sent[|st.sent|]];
      CountsOfSnoc(st.sent, next.sent[|st.sent|]);
    }
  }

  /** No event fails the relay, or makes it announce an end. */
  lemma {:induction false} NothingAnnounced(ps: seq<Payload>)
    ensures var st := Relayed(ps);
            Completions(st.sent) == 0 && ErrorNotes(st.sent) == 0 && (st.progress.Stopped? ==> st.progress.error == "")
  {
    if ps != [] {
      NothingAnnounced(ps[..|ps| - 1]);
      PayloadAnnouncesNothing(Relayed(ps[..|ps| - 1]), ps[|ps| - 1]);
    }
  }

  /** The loop over the payloads the parser yields, up to what ends it. */
  method ReadStream(ps: seq<Payload>, readErr: string, cancelAt: nat)
    returns (content: string, toolCalls: seq<ToolCall>, inputTokens: int, outputTokens: int,
             sent: seq<Notification>, streamErr: string)
    ensures var st := Relayed(ps[..Min(cancelAt, |ps|)]);
            content == st.content && toolCalls == st.toolCalls && inputTokens == st.inputTokens
            && outputTokens == st.outputTokens && sent == st.sent && streamErr == StreamErr(ps, readErr, cancelAt)
  {
    content, toolCalls, inputTokens, outputTokens, sent, streamErr := "", [], 0, 0, [], "";
    var pending: seq<ToolCall>, stopped := [], false;
    var i := 0;
    while !stopped
      invariant i <= |ps|
      invariant !stopped ==>
                  i <= cancelAt && streamErr == ""
                  && Relayed(ps[..i]) ==
                     RelayState(content, toolCalls, inputTokens, outputTokens, pending, sent, Reading)
      invariant stopped ==>
                  streamErr == StreamErr(ps, readErr, cancelAt)
                  && var st := Relayed(ps[..Min(cancelAt, |ps|)]);
                     content == st.content && toolCalls == st.toolCalls && inputTokens == st.inputTokens
                     && outputTokens == st.outputTokens && sent == st.sent
      decreases |ps| - i, !stopped
    {
      if i >= cancelAt {
        streamErr, stopped := "cancelled", true;
      } else if i == |ps| {
        assert ps[..i] == ps[..Min(cancelAt, |ps|)];
        streamErr, stopped := readErr, true;
      } else {
        assert ps[..i + 1][..i] == ps[..i];
        var ev := ParseStreamEvent(ps[i]);
        i := i + 1;
        if ev.Failure? || ev.value == None {
          continue;
        }
        match ev.value.value {
          case Text(text) =>
            content := content + text;
            sent := sent + [TokenDelta(text)];
          case ToolCallStart(id, name, input) =>
            pending := pending + [ToolCall(id, name, input)];
          case ToolCallDelta(partial) =>
            if |pending| > 0 {
              var top := |pending| - 1;
              pending := pending[top := pending[top].(input := pending[top].input + partial)];
            }
          case ToolCallEnd =>
            if |pending| == 0 {
              continue;
            }
            var call := pending[|pending| - 1];
            toolCalls := toolCalls + [call];
            sent := sent + [ToolCallNote(call)];
          case Usage(input, output) =>
            if input > 0 {
              inputTokens := input;
            }
            if output > 0 {
              outputTokens := output;
            }
          case Done =>
            stopped := true;
            StoppedStays(ps, i, Min(cancelAt, |ps|));
          case StreamError(message) =>
            streamErr, stopped := message, true;
            StoppedStays(ps, i, Min(cancelAt, |ps|));
        }
      }
    }
  }

  /** What follows the loop: the turn's totals, and the error unless the turn was cancelled. */
  method Announce(inputTokens: int, outputTokens: int, error: string)
    returns (closing: seq<Notification>, failed: bool)
    ensures failed == (error != "" && error != "cancelled")
    ensures closing == [TurnComplete(inputTokens, outputTokens, error == "cancelled")]
                       + (if failed then [ErrorNote(error)] else [])
  {
    closing := [TurnComplete(inputTokens, outputTokens, error == "cancelled")];
    failed := error != "" && error != "cancelled";
    if failed {
      closing := closing + [ErrorNote(error)];
    }
  }

  lemma ClosingCounts(sent: seq<Notification>, complete: Notification, failed: bool, error: string)
    requires complete.TurnComplete? && Completions(sent) == 0 && ErrorNotes(sent) == 0
    ensures var all := sent + ([complete] + (if failed then [ErrorNote(error)] else []));
            Completions(all) == 1 && ErrorNotes(all) == if failed then 1 else 0
  {
    CountsOfSnoc(sent, complete);
    CountsOfSnoc(sent + [complete], ErrorNote(error));
    if failed {
      assert sent + ([complete] + [ErrorNote(error)]) == (sent + [complete]) + [ErrorNote(error)];
    } else {
      assert [complete] + [] == [complete];
    }
  }

  lemma StreamErrIs(ps: seq<Payload>, readErr: string, cancelAt: nat)
    ensures StreamErr(ps, readErr, cancelAt) ==
            if DoneFirst(ps, cancelAt) then "cancelled"
            else if Relayed(ps[..Min(cancelAt, |ps|)]).progress.Reading? then readErr
            else ""
  {
    NothingAnnounced(ps[..Min(cancelAt, |ps|)]);
  }

  /**
   The relay over the payloads the parser yields. `readErr` is the parser's final error, "" for the
   end of the stream; `persistErr` is what storing the turn returns. The client is told once how the
   turn ended: its totals, whether it was cancelled, and then the error of a failed one, the store's
   only when the stream had none.
   */
  method Relay(ps: seq<Payload>, readErr: string, cancelAt: nat, persistErr: string)
    returns (content: string, toolCalls: seq<ToolCall>, inputTokens: int, outputTokens: int,
             sent: seq<Notification>, failed: bool)
    ensures var st := Relayed(ps[..Min(cancelAt, |ps|)]);
            content == st.content && toolCalls == st.toolCalls
            && inputTokens == st.inputTokens && outputTokens == st.outputTokens && st.sent <= sent
    ensures var st, done := Relayed(ps[..Min(cancelAt, |ps|)]), DoneFirst(ps, cancelAt);
            var error := if done then "cancelled"
                         else if st.progress.Reading? && readErr != "" then readErr
                         else persistErr;
            failed == (error != "" && error != "cancelled")
            && sent[|st.sent|..] ==
               [TurnComplete(inputTokens, outputTokens, error == "cancelled")]
               + (if failed then [ErrorNote(error)] else [])
            && (readErr != "cancelled" && persistErr != "cancelled" ==> (error == "cancelled" <==> done))
    ensures Completions(sent) == 1 && ErrorNotes(sent) == if failed then 1 else 0
  {
    var streamErr;
    content, toolCalls, inputTokens, outputTokens, sent, streamErr := ReadStream(ps, readErr, cancelAt);
    StreamErrIs(ps, readErr, cancelAt);
    if persistErr != "" && streamErr == "" {
      streamErr := persistErr;
    }
    var closing;
    closing, failed := Announce(inputTokens, outputTokens, streamErr);
    NothingAnnounced(ps[..Min(cancelAt, |ps|)]);
    ClosingCounts(sent, closing[0], failed, streamErr);
    sent := sent + closing;
  }

  /** Once stopped, the relay reads nothing more. */
  lemma {:induction false} StoppedStays(ps: seq<Payload>, i: nat, n: nat)
    requires i <= n <= |ps| && Relayed(ps[..i]).progress.Stopped?
    ensures Relayed(ps[..n]) == Relayed(ps[..i])
  {
    if i < n {
      StoppedStays(ps, i, n - 1);
      assert ps[..n][..n - 1] == ps[..n - 1];
    }
  }

  // ---------------------------------------------------------------- the capture path

  datatype Chunk = Chunk(eventType: Kind, data: Payload)

  datatype Response = Response(model: string, inputTokens: int, outputTokens: int, stopReason: string, text: string)

  function ReadChunk(r: Response, c: Chunk): Result<Response, string> {
    match c.eventType
    case MessageStart =>
      if c.data.Malformed? then Failure("failed to parse message_start")
      else Success(r.(model := c.data.model, inputTokens := c.data.inputTokens))
    case BlockDelta =>
      if c.data.Malformed? then Failure("failed to parse content_block_delta")
      else Success(r.(text := r.text + c.data.text))
    case MessageDelta =>
      if c.data.Malformed? then Failure("failed to parse message_delta")
      else Success(r.(stopReason := c.data.stopReason, outputTokens := c.data.outputTokens))
    case _ => Success(r)
  }

  function Reassembled(chunks: seq<Chunk>): Result<Response, string> {
    if chunks == [] then Success(Response("", 0, 0, "", ""))
    else match Reassembled(chunks[..|chunks| - 1])
      case Failure(e) => Failure(e)
      case Success(r) => ReadChunk(r, chunks[|chunks| - 1])
  }

  method ReassembleStream(chunks: seq<Chunk>) returns (r: Result<Response, string>)
    ensures r == Reassembled(chunks)
  {
    var response := Response("", 0, 0, "", "");
    for i := 0 to |chunks|
      invariant Reassembled(chunks[..i]) == Success(response)
    {
      assert chunks[..i + 1][..i] == chunks[..i];
      var next := ReadChunk(response, chunks[i]);
      if next.Failure? {
        FailureStays(chunks, i + 1);
        return next;
      }
      response := next.value;
    }
    assert chunks[..|chunks|] == chunks;
    return Success(response);
  }

  lemma {:induction false} FailureStays(chunks: seq<Chunk>, i: nat)
    requires i <= |chunks| && Reassembled(chunks[..i]).Failure?
    ensures Reassembled(chunks) == Reassembled(chunks[..i])
    decreases |chunks|
  {
    if i == |chunks| {
      assert chunks[..i] == chunks;
    } else {
      var init := chunks[..|chunks| - 1];
      assert init[..i] == chunks[..i];
      FailureStays(init, i);
    }
  }
}
