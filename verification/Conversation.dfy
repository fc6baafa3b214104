/**
 The in-memory history of a session and its restore from stored turns
 (internal/runtime/conversation.go). Memory is the mutable history as a value.
 */
module Conversation {
  import opened Wrappers
  import opened Messages
  import opened TurnLog

  /**
   The JSON codec. `compact` is what writing a tool input and reading it again gives, None when the
   input is not valid JSON; `write` encodes a message whose inputs are valid, `writeCalls` its calls
   alone; `read` decodes.
   */
  datatype Codec = Codec(compact: string -> Option<string>, write: Message -> string,
                         writeCalls: seq<ToolCall> -> string, read: string -> Option<Message>)

  const ZERO := Message("", "", [], [], [], map[])

  predicate Encodes(codec: Codec, calls: seq<ToolCall>) {
    forall c | c in calls :: codec.compact(c.input).Some?
  }

  function Compacted(codec: Codec, calls: seq<ToolCall>): seq<ToolCall>
    requires Encodes(codec, calls)
  {
    if calls == [] then []
    else [calls[0].(input := codec.compact(calls[0].input).value)] + Compacted(codec, calls[1..])
  }

  /** The message a restore reads back: a message that failed to encode was stored as null. */
  function ReadBack(codec: Codec, m: Message): Message {
    if Encodes(codec, m.toolCalls) then m.(toolCalls := Compacted(codec, m.toolCalls)) else ZERO
  }

  function Stored(codec: Codec, m: Message): string {
    if Encodes(codec, m.toolCalls) then codec.write(m) else "null"
  }

  /** Reading what was written gives the message with compact inputs; null reads as the zero message. */
  ghost predicate Lawful(codec: Codec) {
    && codec.read("null") == Some(ZERO)
    && (forall m: Message :: Encodes(codec, m.toolCalls) ==>
                              codec.write(m) != "" && codec.read(codec.write(m)) == Some(ReadBack(codec, m)))
  }

  datatype Submit = Submit(turnId: string, sequence: int, content: string, attachments: seq<Attachment>,
                           toolResults: seq<ToolResult>)

  datatype Response = Response(content: string, toolCalls: seq<ToolCall>, usage: Usage)

  /** The history as a value: messages, the wire counter and the storage counter. */
  datatype Memory = Memory(messages: seq<Message>, userSequence: int, storageSequence: int)

  const EMPTY := Memory([], 0, 0)

  function UserMessage(s: Submit): Message {
    Message("user", s.content, [], s.toolResults, s.attachments, map["turn_id" := s.turnId])
  }

  function AssistantMessage(r: Response): Message {
    Message("assistant", r.content, r.toolCalls, [], [], map[])
  }

  /** The column of calls stays empty for a message without calls, or with calls that fail to encode. */
  function StoredCalls(codec: Codec, calls: seq<ToolCall>): string {
    if calls != [] && Encodes(codec, calls) then codec.writeCalls(calls) else ""
  }

  function TurnOf(codec: Codec, id: string, sequence: int, m: Message, usage: Usage): Turn {
    Turn(id, sequence, RoleOf(m.role), Stored(codec, m), StoredCalls(codec, m.toolCalls), usage, false, "", [])
  }

  predicate IsNext(mem: Memory, s: Submit) {
    s.sequence == mem.userSequence + 1
  }

  function UserAppended(mem: Memory, s: Submit): Memory {
    if IsNext(mem, s) then Memory(mem.messages + [UserMessage(s)], s.sequence, mem.storageSequence + 1) else mem
  }

  function UserTurn(codec: Codec, mem: Memory, s: Submit, freshId: string): Turn {
    TurnOf(codec, if s.turnId == "" then freshId else s.turnId, mem.storageSequence + 1, UserMessage(s), NO_USAGE)
  }

  function AssistantAppended(mem: Memory, r: Response): Memory {
    Memory(mem.messages + [AssistantMessage(r)], mem.userSequence, mem.storageSequence + 1)
  }

  function AssistantTurn(codec: Codec, mem: Memory, r: Response, freshId: string): Turn {
    TurnOf(codec, freshId, mem.storageSequence + 1, AssistantMessage(r), r.usage)
  }

  // ---------------------------------------------------------------- restore

  function Decoded(codec: Codec, t: Turn): Option<Message> {
    if t.content == "" then None else codec.read(t.content)
  }

  datatype Restoring = Restoring(memory: Memory, ok: bool)

  function Remembered(mem: Memory, m: Message, sequence: int): Memory {
    Memory(mem.messages + [m], if m.role == "user" then mem.userSequence + 1 else mem.userSequence,
           if sequence > mem.storageSequence then sequence else mem.storageSequence)
  }

  /** What a restore of this log leaves; the first turn that does not decode ends it. */
  function Restored(codec: Codec, log: seq<Turn>): Restoring {
    if log == [] then Restoring(EMPTY, true)
    else
      var front, m := Restored(codec, log[..|log| - 1]), Decoded(codec, log[|log| - 1]);
      if !front.ok then front
      else if m.None? then Restoring(front.memory, false)
      else Restoring(Remembered(front.memory, m.value, log[|log| - 1].sequence), true)
  }

  lemma {:induction false} FailureStays(codec: Codec, log: seq<Turn>, n: nat)
    requires n <= |log| && !Restored(codec, log[..n]).ok
    ensures Restored(codec, log) == Restored(codec, log[..n])
    decreases |log|
  {
    if n < |log| {
      assert log[..|log| - 1][..n] == log[..n];
      FailureStays(codec, log[..|log| - 1], n);
    } else {
      assert log[..n] == log;
    }
  }

  /** A turn without content cannot be restored: the history ends before it. */
  lemma EmptyTurnEndsRestore(codec: Codec, log: seq<Turn>, t: Turn, more: seq<Turn>)
    requires t.content == "" && Restored(codec, log).ok
    ensures Restored(codec, log + [t] + more) == Restoring(Restored(codec, log).memory, false)
  {
    var all := log + [t] + more;
    assert all[..|log| + 1] == log + [t] && (log + [t])[..|log|] == log;
    FailureStays(codec, all, |log| + 1);
  }

  // ---------------------------------------------------------------- pending tool calls

  /** The index of the last assistant message, or -1. */
  function LastAssistant(msgs: seq<Message>): (i: int)
    ensures -1 <= i < |msgs|
  {
    if msgs == [] then -1
    else if msgs[|msgs| - 1].role == "assistant" then |msgs| - 1
    else LastAssistant(msgs[..|msgs| - 1])
  }

  ghost predicate Answered(msgs: seq<Message>, id: string) {
    exists m: Message, r :: m in msgs && r in m.toolResults && r.toolCallId == id
  }

  /** The calls whose identifiers are not in a set, in order. */
  function Unanswered(calls: seq<ToolCall>, resolved: set<string>): seq<ToolCall> {
    if calls == [] then []
    else
      var last := calls[|calls| - 1];
      Unanswered(calls[..|calls| - 1], resolved) + if last.id in resolved then [] else [last]
  }

  function ResultIds(results: seq<ToolResult>): set<string> {
    set r | r in results :: r.toolCallId
  }

  function AllResultIds(msgs: seq<Message>): set<string> {
    if msgs == [] then {} else AllResultIds(msgs[..|msgs| - 1]) + ResultIds(msgs[|msgs| - 1].toolResults)
  }

  /** Of these calls, the ones no later message answers. */
  function PendingAfter(calls: seq<ToolCall>, later: seq<Message>): seq<ToolCall> {
    Unanswered(calls, AllResultIds(later))
  }

  function PendingCalls(msgs: seq<Message>): seq<ToolCall> {
    var i := LastAssistant(msgs);
    if i < 0 then [] else PendingAfter(msgs[i].toolCalls, msgs[i + 1..])
  }

  // ---------------------------------------------------------------- the mutable history

  class Conversation {
    const codec: Codec
    var turns: seq<Message>
    var userSequence: int
    var storageSequence: int

    function View(): Memory
      reads this
    {
      Memory(turns, userSequence, storageSequence)
    }

    constructor (codec: Codec)
      ensures this.codec == codec && View() == EMPTY
    {
      this.codec := codec;
      turns, userSequence, storageSequence := [], 0, 0;
    }

    /** Takes the next submission of the wire; any other is rejected and changes nothing. */
    method AppendUserTurn(submit: Submit, freshId: string) returns (turn: Option<Turn>)
      modifies this
      ensures View() == UserAppended(old(View()), submit)
      ensures turn == if IsNext(old(View()), submit) then Some(UserTurn(codec, old(View()), submit, freshId)) else None
    {
      if submit.sequence != userSequence + 1 {
        return None;
      }
      var msg := UserMessage(submit);
      turns := turns + [msg];
      userSequence := submit.sequence;
      storageSequence := storageSequence + 1;
      var stored := TurnOf(codec, submit.turnId, storageSequence, msg, NO_USAGE);
      if stored.id == "" {
        stored := stored.(id := freshId);
      }
      turn := Some(stored);
    }

    method AppendAssistantTurn(resp: Response, freshId: string) returns (turn: Turn)
      modifies this
      ensures View() == AssistantAppended(old(View()), resp)
      ensures turn == AssistantTurn(codec, old(View()), resp, freshId)
    {
      var msg := AssistantMessage(resp);
      turns := turns + [msg];
      storageSequence := storageSequence + 1;
      turn := TurnOf(codec, freshId, storageSequence, msg, resp.usage);
    }

    /** Rebuilds the history; a turn that does not decode leaves the turns before it. */
    method RestoreFromTurns(log: seq<Turn>) returns (ok: bool)
      modifies this
      ensures Restoring(View(), ok) == Restored(codec, log)
    {
      turns, userSequence, storageSequence := [], 0, 0;
      for i := 0 to |log|
        invariant Restored(codec, log[..i]) == Restoring(View(), true)
      {
        assert log[..i + 1][..i] == log[..i];
        var msg := Decoded(codec, log[i]);
        if msg.None? {
          FailureStays(codec, log, i + 1);
          return false;
        }
        turns := turns + [msg.value];
        if log[i].sequence > storageSequence {
          storageSequence := log[i].sequence;
        }
        if msg.value.role == "user" {
          userSequence := userSequence + 1;
        }
      }
      assert log[..|log|] == log;
      ok := true;
    }

    method FindLastAssistant() returns (last: int)
      ensures last == LastAssistant(turns)
    {
      last := |turns| - 1;
      assert turns[..|turns|] == turns;
      while last >= 0 && turns[last].role != "assistant"
        invariant -1 <= last < |turns| && LastAssistant(turns) == LastAssistant(turns[..last + 1])
      {
        assert turns[..last + 1][..last] == turns[..last];
        last := last - 1;
      }
    }

    /** The last assistant message's calls that no later message answers. */
    method PendingToolCalls() returns (pending: seq<ToolCall>)
      ensures pending == PendingCalls(turns)
    {
      var last := FindLastAssistant();
      pending := [];
      if last < 0 || |turns[last].toolCalls| == 0 {
        return;
      }
      var resolved: set<string> := {};
      for i := last + 1 to |turns|
        invariant resolved == AllResultIds(turns[last + 1..i])
      {
        assert turns[last + 1..i + 1][..i - last - 1] == turns[last + 1..i];
        resolved := resolved + ResultIds(turns[i].toolResults);
      }
      assert turns[last + 1..|turns|] == turns[last + 1..];
      var calls := turns[last].toolCalls;
      for i := 0 to |calls|
        invariant pending == Unanswered(calls[..i], resolved)
      {
        assert calls[..i + 1][..i] == calls[..i];
        if calls[i].id !in resolved {
          pending := pending + [calls[i]];
        }
      }
      assert calls[..|calls|] == calls;
    }

    /** The first outstanding call with this identifier. */
    method MatchToolResult(toolCallId: string) returns (call: Option<ToolCall>)
      ensures call.None? <==> forall c :: c in PendingCalls(turns) ==> c.id != toolCallId
      ensures call.Some? ==> exists i :: 0 <= i < |PendingCalls(turns)| && PendingCalls(turns)[i] == call.value
                                         && call.value.id == toolCallId
                                         && forall j :: 0 <= j < i ==> PendingCalls(turns)[j].id != toolCallId
    {
      var pending := PendingToolCalls();
      for i := 0 to |pending|
        invariant forall j :: 0 <= j < i ==> pending[j].id != toolCallId
      {
        if pending[i].id == toolCallId {
          return Some(pending[i]);
        }
      }
      call := None;
    }
  }

  // ---------------------------------------------------------------- what is remembered and stored

  /** An accepted submission is remembered as a user's message with all it carries. */
  lemma SubmissionIsRemembered(mem: Memory, s: Submit)
    requires s.sequence == mem.userSequence + 1
    ensures var next := UserAppended(mem, s);
            next.messages[..|next.messages| - 1] == mem.messages && next.userSequence == s.sequence
            && var m := next.messages[|next.messages| - 1];
               m.role == "user" && m.content == s.content && m.attachments == s.attachments
               && m.toolResults == s.toolResults && m.toolCalls == []
               && "turn_id" in m.metadata && m.metadata["turn_id"] == s.turnId
  {
  }

  /** A submission out of sequence changes nothing. */
  lemma OtherSequenceIsRefused(mem: Memory, s: Submit)
    requires s.sequence != mem.userSequence + 1
    ensures UserAppended(mem, s) == mem
  {
  }

  /** A response is remembered as an assistant's message with its text and calls. */
  lemma ResponseIsRemembered(mem: Memory, r: Response)
    ensures var next := AssistantAppended(mem, r);
            next.messages[..|next.messages| - 1] == mem.messages && next.userSequence == mem.userSequence
            && var m := next.messages[|next.messages| - 1];
               m.role == "assistant" && m.content == r.content && m.toolCalls == r.toolCalls
               && m.toolResults == [] && m.attachments == [] && m.metadata == map[]
  {
  }

  /** The stored turns: the client's identifier or a fresh one, the next sequence, role, usage and calls. */
  lemma StoredTurnsSay(codec: Codec, mem: Memory, s: Submit, r: Response, freshId: string)
    ensures var user, assistant := UserTurn(codec, mem, s, freshId), AssistantTurn(codec, mem, r, freshId);
            user.id == (if s.turnId == "" then freshId else s.turnId) && assistant.id == freshId
            && user.sequence == assistant.sequence == mem.storageSequence + 1
            && user.role == UserRole && assistant.role == AssistantRole
            && user.usage == NO_USAGE && assistant.usage == r.usage
            && !user.compacted && !assistant.compacted && user.toolCalls == ""
            && (assistant.toolCalls == if r.toolCalls != [] && Encodes(codec, r.toolCalls)
                                       then codec.writeCalls(r.toolCalls) else "")
            && user.content == codec.write(UserMessage(s))
            && assistant.content == if Encodes(codec, r.toolCalls) then codec.write(AssistantMessage(r)) else "null"
  {
    assert |"assistant"| != |"user"|;
  }

  // ---------------------------------------------------------------- what is pending

  lemma {:induction false} UnansweredTwice(calls: seq<ToolCall>, a: set<string>, b: set<string>)
    ensures Unanswered(Unanswered(calls, a), b) == Unanswered(calls, a + b)
  {
    if calls != [] {
      var init, last := calls[..|calls| - 1], calls[|calls| - 1];
      UnansweredTwice(init, a, b);
      var kept := Unanswered(init, a);
      assert kept + [] == kept;
      assert (kept + [last])[..|kept|] == kept;
    }
  }

  lemma {:induction false} NothingAnswered(calls: seq<ToolCall>)
    ensures Unanswered(calls, {}) == calls
  {
    if calls != [] {
      NothingAnswered(calls[..|calls| - 1]);
    }
  }

  /** After a response exactly its calls are pending. */
  lemma PendingAfterResponse(mem: Memory, r: Response)
    ensures PendingCalls(AssistantAppended(mem, r).messages) == r.toolCalls
  {
    NothingAnswered(r.toolCalls);
    var msgs := AssistantAppended(mem, r).messages;
    assert msgs[|msgs|..] == [];
  }

  lemma PendingAfterOneMore(calls: seq<ToolCall>, later: seq<Message>, m: Message)
    ensures PendingAfter(calls, later + [m]) == Unanswered(PendingAfter(calls, later), ResultIds(m.toolResults))
  {
    assert (later + [m])[..|later|] == later;
    UnansweredTwice(calls, AllResultIds(later), ResultIds(m.toolResults));
  }

  lemma PendingOfSnoc(msgs: seq<Message>, m: Message)
    requires m.role != "assistant"
    ensures PendingCalls(msgs + [m]) == Unanswered(PendingCalls(msgs), ResultIds(m.toolResults))
  {
    assert (msgs + [m])[..|msgs|] == msgs;
    var i := LastAssistant(msgs);
    assert LastAssistant(msgs + [m]) == i;
    if i >= 0 {
      assert (msgs + [m])[i] == msgs[i] && (msgs + [m])[i + 1..] == msgs[i + 1..] + [m];
      PendingAfterOneMore(msgs[i].toolCalls, msgs[i + 1..], m);
    }
  }

  /** An accepted submission settles exactly the calls whose results it carries. */
  lemma PendingAfterSubmit(mem: Memory, s: Submit)
    requires IsNext(mem, s)
    ensures PendingCalls(UserAppended(mem, s).messages) ==
            Unanswered(PendingCalls(mem.messages), ResultIds(s.toolResults))
  {
    PendingOfSnoc(mem.messages, UserMessage(s));
  }

  lemma {:induction false} ResultIdsExactly(msgs: seq<Message>, id: string)
    ensures id in AllResultIds(msgs) <==> Answered(msgs, id)
  {
    if msgs != [] {
      var init, last := msgs[..|msgs| - 1], msgs[|msgs| - 1];
      ResultIdsExactly(init, id);
      assert msgs == init + [last];
    }
  }

  lemma {:induction false} UnansweredExactly(calls: seq<ToolCall>, resolved: set<string>, c: ToolCall)
    ensures c in Unanswered(calls, resolved) <==> c in calls && c.id !in resolved
  {
    if calls != [] {
      var init, last := calls[..|calls| - 1], calls[|calls| - 1];
      UnansweredExactly(init, resolved, c);
      assert calls == init + [last];
    }
  }

  lemma PendingAfterExactly(calls: seq<ToolCall>, later: seq<Message>, c: ToolCall)
    ensures c in PendingAfter(calls, later) <==> c in calls && !Answered(later, c.id)
  {
    UnansweredExactly(calls, AllResultIds(later), c);
    ResultIdsExactly(later, c.id);
  }

  lemma PendingAreOfLast(msgs: seq<Message>, i: int)
    requires i == LastAssistant(msgs)
    ensures PendingCalls(msgs) == if i < 0 then [] else PendingAfter(msgs[i].toolCalls, msgs[i + 1..])
  {
  }

  /** A call is pending exactly when the last assistant message made it and no later message answers it. */
  lemma PendingExactly(msgs: seq<Message>, c: ToolCall)
    ensures var i := LastAssistant(msgs);
            c in PendingCalls(msgs) <==> i >= 0 && c in msgs[i].toolCalls && !Answered(msgs[i + 1..], c.id)
  {
    var i := LastAssistant(msgs);
    PendingAreOfLast(msgs, i);
    if i >= 0 {
      PendingAfterExactly(msgs[i].toolCalls, msgs[i + 1..], c);
    }
  }
}
