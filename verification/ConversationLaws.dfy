/** Memory and log: what a restore rebuilds after any run of appends, and when that is the history. */
module ConversationLaws {
  import opened Wrappers
  import opened Messages
  import opened TurnLog
  import opened Conversation

  /**
   What a run does to the history; `freshId` is the identifier generated for the turn. The store also
   refuses a turn for reasons that are not in this log: another session has its identifier, or I/O.
   */
  datatype Op = Submitted(submit: Submit, freshId: string, refused: bool)
              | Responded(response: Response, freshId: string, refused: bool)

  /** The history and the stored turns of a session. */
  datatype Session = Session(memory: Memory, log: seq<Turn>)

  /** Every response is taken, a submission only when it is next on the wire. */
  predicate Takes(mem: Memory, op: Op) {
    op.Submitted? ==> IsNext(mem, op.submit)
  }

  function MessageOf(op: Op): Message {
    match op
    case Submitted(submit, _, _) => UserMessage(submit)
    case Responded(r, _, _) => AssistantMessage(r)
  }

  function TurnFor(codec: Codec, mem: Memory, op: Op): Turn {
    match op
    case Submitted(submit, freshId, _) => UserTurn(codec, mem, submit, freshId)
    case Responded(r, freshId, _) => AssistantTurn(codec, mem, r, freshId)
  }

  function Appended(mem: Memory, op: Op): Memory {
    match op
    case Submitted(submit, _, _) => UserAppended(mem, submit)
    case Responded(r, _, _) => AssistantAppended(mem, r)
  }

  /** The store takes the turn of this step: its identifier is free here, and nothing else is wrong. */
  predicate Stores(codec: Codec, s: Session, op: Op) {
    Takes(s.memory, op) && !op.refused && TurnFor(codec, s.memory, op).id !in Ids(s.log)
  }

  /** Memory is appended to before the turn is stored, and keeps the message when the store refuses. */
  function Stepped(codec: Codec, s: Session, op: Op): Session {
    Session(Appended(s.memory, op),
            if Stores(codec, s, op) then Inserted(s.log, TurnFor(codec, s.memory, op)) else s.log)
  }

  function Ran(codec: Codec, s: Session, ops: seq<Op>): Session {
    if ops == [] then s else Stepped(codec, Ran(codec, s, ops[..|ops| - 1]), ops[|ops| - 1])
  }

  // ---------------------------------------------------------------- the log stays ordered

  /** Every stored turn is at or below the storage counter. */
  ghost predicate Bounded(s: Session) {
    forall t :: t in s.log ==> t.sequence <= s.memory.storageSequence
  }

  lemma AppendedStaysOrdered(s: Session, t: Turn)
    requires Increasing(s.log) && Bounded(s) && t.sequence == s.memory.storageSequence + 1
    ensures Inserted(s.log, t) == s.log + [t] && Increasing(s.log + [t])
  {
    InsertedLast(s.log, t);
    forall i | 0 <= i < |s.log| ensures s.log[i].sequence < t.sequence {
      assert s.log[i] in s.log;
    }
  }

  lemma StepStaysOrdered(codec: Codec, s: Session, op: Op)
    requires Increasing(s.log) && Bounded(s)
    ensures Increasing(Stepped(codec, s, op).log) && Bounded(Stepped(codec, s, op))
    ensures s.log <= Stepped(codec, s, op).log
  {
    if Stores(codec, s, op) {
      AppendedStaysOrdered(s, TurnFor(codec, s.memory, op));
    }
  }

  /** Storage sequences strictly increase over every run, and no stored turn is moved or lost. */
  lemma {:induction false} LogStaysOrdered(codec: Codec, s: Session, ops: seq<Op>)
    requires Increasing(s.log) && Bounded(s)
    ensures Increasing(Ran(codec, s, ops).log) && Bounded(Ran(codec, s, ops))
    ensures s.log <= Ran(codec, s, ops).log
  {
    if ops != [] {
      LogStaysOrdered(codec, s, ops[..|ops| - 1]);
      StepStaysOrdered(codec, Ran(codec, s, ops[..|ops| - 1]), ops[|ops| - 1]);
    }
  }

  lemma {:induction false} RestoreBounds(codec: Codec, log: seq<Turn>)
    requires Restored(codec, log).ok
    ensures forall t :: t in log ==> t.sequence <= Restored(codec, log).memory.storageSequence
  {
    if log != [] {
      RestoreBounds(codec, log[..|log| - 1]);
      assert log == log[..|log| - 1] + [log[|log| - 1]];
    }
  }

  // ---------------------------------------------------------------- wire sequence numbers

  /** The sequence numbers of the accepted submissions. */
  function AcceptedNumbers(codec: Codec, s: Session, ops: seq<Op>): seq<int> {
    if ops == [] then []
    else
      var front, last := ops[..|ops| - 1], ops[|ops| - 1];
      AcceptedNumbers(codec, s, front)
      + if last.Submitted? && IsNext(Ran(codec, s, front).memory, last.submit) then [last.submit.sequence] else []
  }

  /** The accepted wire numbers are the ones after the counter, without gap or repeat. */
  lemma {:induction false} WireNumbersAreConsecutive(codec: Codec, s: Session, ops: seq<Op>)
    ensures var ns := AcceptedNumbers(codec, s, ops);
            Ran(codec, s, ops).memory.userSequence == s.memory.userSequence + |ns|
            && forall i :: 0 <= i < |ns| ==> ns[i] == s.memory.userSequence + 1 + i
  {
    if ops != [] {
      WireNumbersAreConsecutive(codec, s, ops[..|ops| - 1]);
    }
  }

  // ---------------------------------------------------------------- what a restore finds

  /** What one more stored step adds to a restore. */
  function KeptOneMore(codec: Codec, kept: Memory, before: Memory, op: Op): Memory {
    Memory(kept.messages + [ReadBack(codec, MessageOf(op))],
           if op.Submitted? then kept.userSequence + 1 else kept.userSequence, before.storageSequence + 1)
  }

  /** What is left of the history when memory is lost: the stored steps, messages as they are read back. */
  function Kept(codec: Codec, s: Session, ops: seq<Op>): Memory {
    if ops == [] then s.memory
    else
      var front, before, last := Kept(codec, s, ops[..|ops| - 1]), Ran(codec, s, ops[..|ops| - 1]), ops[|ops| - 1];
      if Stores(codec, before, last) then KeptOneMore(codec, front, before.memory, last) else front
  }

  lemma RestoreOfSnoc(codec: Codec, log: seq<Turn>, t: Turn)
    requires Restored(codec, log).ok && Decoded(codec, t).Some?
    ensures Restored(codec, log + [t]) ==
            Restoring(Remembered(Restored(codec, log).memory, Decoded(codec, t).value, t.sequence), true)
  {
    assert (log + [t])[..|log|] == log;
  }

  lemma StoredReadsBack(codec: Codec, m: Message)
    requires Lawful(codec)
    ensures Stored(codec, m) != "" && codec.read(Stored(codec, m)) == Some(ReadBack(codec, m))
  {
  }

  lemma UserReadsBackExactly(codec: Codec, submit: Submit)
    ensures ReadBack(codec, UserMessage(submit)) == UserMessage(submit)
  {
  }

  lemma RoleReadsBack(codec: Codec, op: Op)
    ensures ReadBack(codec, MessageOf(op)).role == "user" <==> op.Submitted?
  {
    match op
    case Submitted(submit, _, _) => UserReadsBackExactly(codec, submit);
    case Responded(r, _, _) =>
      assert |AssistantMessage(r).role| != |"user"| && |ZERO.role| != |"user"|;
  }

  lemma TurnReadsBack(codec: Codec, mem: Memory, op: Op)
    requires Lawful(codec)
    ensures Decoded(codec, TurnFor(codec, mem, op)) == Some(ReadBack(codec, MessageOf(op)))
    ensures TurnFor(codec, mem, op).sequence == mem.storageSequence + 1
  {
    StoredReadsBack(codec, MessageOf(op));
  }

  lemma RemembersStep(codec: Codec, kept: Memory, before: Memory, op: Op)
    requires kept.storageSequence <= before.storageSequence
    ensures Remembered(kept, ReadBack(codec, MessageOf(op)), before.storageSequence + 1) ==
            KeptOneMore(codec, kept, before, op)
  {
    RoleReadsBack(codec, op);
  }

  /** One more stored step, on a log whose restore is at or below the storage counter. */
  lemma StoredStep(codec: Codec, kept: Memory, s: Session, op: Op)
    requires Lawful(codec) && Increasing(s.log) && Bounded(s) && Stores(codec, s, op)
    requires Restored(codec, s.log) == Restoring(kept, true) && kept.storageSequence <= s.memory.storageSequence
    ensures Restored(codec, Stepped(codec, s, op).log) == Restoring(KeptOneMore(codec, kept, s.memory, op), true)
  {
    var t := TurnFor(codec, s.memory, op);
    TurnReadsBack(codec, s.memory, op);
    AppendedStaysOrdered(s, t);
    RestoreOfSnoc(codec, s.log, t);
    RemembersStep(codec, kept, s.memory, op);
  }

  lemma KeptStaysBelow(codec: Codec, s: Session, ops: seq<Op>)
    requires ops != []
    requires Kept(codec, s, ops[..|ops| - 1]).storageSequence <=
             Ran(codec, s, ops[..|ops| - 1]).memory.storageSequence
    ensures Kept(codec, s, ops).storageSequence <= Ran(codec, s, ops).memory.storageSequence
  {
  }

  /** A session just restored from an ordered log; an empty one when the log is empty. */
  ghost predicate JustRestored(codec: Codec, s: Session) {
    Increasing(s.log) && Restored(codec, s.log) == Restoring(s.memory, true)
  }

  /**
   Restore finds what was stored. From a restored session, after any submissions and responses,
   stored or refused, a restore succeeds and gives the stored steps' messages as they are read back
   and both their counters.
   */
  lemma {:induction false} RestoreMirrorsMemory(codec: Codec, s: Session, ops: seq<Op>)
    requires Lawful(codec) && JustRestored(codec, s)
    ensures Restored(codec, Ran(codec, s, ops).log) == Restoring(Kept(codec, s, ops), true)
    ensures Kept(codec, s, ops).storageSequence <= Ran(codec, s, ops).memory.storageSequence
  {
    if ops != [] {
      var front, last := ops[..|ops| - 1], ops[|ops| - 1];
      RestoreMirrorsMemory(codec, s, front);
      RestoreBounds(codec, s.log);
      LogStaysOrdered(codec, s, front);
      if Stores(codec, Ran(codec, s, front), last) {
        StoredStep(codec, Kept(codec, s, front), Ran(codec, s, front), last);
      }
      KeptStaysBelow(codec, s, ops);
    }
  }

  // ---------------------------------------------------------------- what refusals cost

  /** How many turns were taken into memory and refused by the store; of submissions, or of all. */
  function Refused(codec: Codec, s: Session, ops: seq<Op>, all: bool): nat {
    if ops == [] then 0
    else
      var front, before, last := Refused(codec, s, ops[..|ops| - 1], all), Ran(codec, s, ops[..|ops| - 1]),
        ops[|ops| - 1];
      if Takes(before.memory, last) && !Stores(codec, before, last) && (all || last.Submitted?) then front + 1
      else front
  }

  /** What is kept falls short of memory by exactly the refused turns; the wire counter by the submissions. */
  lemma {:induction false} KeptFallsShort(codec: Codec, s: Session, ops: seq<Op>)
    ensures var mem, kept := Ran(codec, s, ops).memory, Kept(codec, s, ops);
            |mem.messages| == |kept.messages| + Refused(codec, s, ops, true)
            && mem.userSequence == kept.userSequence + Refused(codec, s, ops, false)
            && (Refused(codec, s, ops, true) == 0 ==> mem.storageSequence == kept.storageSequence)
            && Refused(codec, s, ops, false) <= Refused(codec, s, ops, true)
  {
    if ops != [] {
      KeptFallsShort(codec, s, ops[..|ops| - 1]);
    }
  }

  /** After a restore a client that counts on is accepted exactly when no submission of its was refused. */
  lemma CountingOnAfterRestore(codec: Codec, s: Session, ops: seq<Op>, submit: Submit)
    requires Lawful(codec) && JustRestored(codec, s) && IsNext(Ran(codec, s, ops).memory, submit)
    ensures IsNext(Restored(codec, Ran(codec, s, ops).log).memory, submit) <==> Refused(codec, s, ops, false) == 0
  {
    RestoreMirrorsMemory(codec, s, ops);
    KeptFallsShort(codec, s, ops);
  }

  // ---------------------------------------------------------------- when the messages are the same

  /** Every input of these calls is valid JSON as the encoder writes it. */
  predicate Plain(codec: Codec, calls: seq<ToolCall>) {
    forall c | c in calls :: codec.compact(c.input) == Some(c.input)
  }

  lemma {:induction false} CompactedExactly(codec: Codec, calls: seq<ToolCall>)
    requires Encodes(codec, calls)
    ensures Compacted(codec, calls) == calls <==> Plain(codec, calls)
  {
    if calls != [] {
      CompactedExactly(codec, calls[1..]);
      assert calls == [calls[0]] + calls[1..];
    }
  }

  lemma ReadsBackExactly(codec: Codec, m: Message)
    ensures ReadBack(codec, m) == m <==> Plain(codec, m.toolCalls)
  {
    if Encodes(codec, m.toolCalls) {
      CompactedExactly(codec, m.toolCalls);
    } else {
      var c :| c in m.toolCalls && codec.compact(c.input).None?;
      assert ZERO.toolCalls == [];
    }
  }

  ghost predicate PlainResponses(codec: Codec, ops: seq<Op>) {
    forall op :: op in ops && op.Responded? ==> Plain(codec, op.response.toolCalls)
  }

  lemma PlainOfLast(codec: Codec, ops: seq<Op>)
    requires ops != []
    ensures var init, last := ops[..|ops| - 1], ops[|ops| - 1];
            PlainResponses(codec, ops) <==> PlainResponses(codec, init) && Plain(codec, MessageOf(last).toolCalls)
  {
    var init, last := ops[..|ops| - 1], ops[|ops| - 1];
    assert ops == init + [last];
    if PlainResponses(codec, ops) {
      assert last in ops;
    }
  }

  lemma SnocExactly(a: seq<Message>, m: Message, b: seq<Message>, n: Message)
    ensures a + [m] == b + [n] <==> a == b && m == n
  {
    if a + [m] == b + [n] {
      assert |a + [m]| == |b + [n]|;
      assert (a + [m])[..|a|] == a && (b + [n])[..|b|] == b;
      assert (a + [m])[|a|] == m && (b + [n])[|b|] == n;
    }
  }

  lemma {:induction false} KeptExactly(codec: Codec, s: Session, ops: seq<Op>)
    ensures Kept(codec, s, ops).messages == Ran(codec, s, ops).memory.messages <==>
            PlainResponses(codec, ops) && Refused(codec, s, ops, true) == 0
  {
    KeptFallsShort(codec, s, ops);
    if ops != [] && Refused(codec, s, ops, true) == 0 {
      var front, last := ops[..|ops| - 1], ops[|ops| - 1];
      KeptExactly(codec, s, front);
      PlainOfLast(codec, ops);
      ReadsBackExactly(codec, MessageOf(last));
      SnocExactly(Kept(codec, s, front).messages, ReadBack(codec, MessageOf(last)),
                  Ran(codec, s, front).memory.messages, MessageOf(last));
    }
  }

  /**
   A restore gives the history in memory exactly when every tool input of every response is JSON as
   the encoder writes it and the store refused no turn that memory took.
   */
  lemma RestoreIsExact(codec: Codec, s: Session, ops: seq<Op>)
    requires Lawful(codec) && JustRestored(codec, s)
    ensures var end := Ran(codec, s, ops);
            Restored(codec, end.log) == Restoring(end.memory, true) <==>
            PlainResponses(codec, ops) && Refused(codec, s, ops, true) == 0
  {
    RestoreMirrorsMemory(codec, s, ops);
    KeptExactly(codec, s, ops);
    KeptFallsShort(codec, s, ops);
  }

  lemma OneStep(codec: Codec, s: Session, op: Op)
    ensures Ran(codec, s, [op]) == Stepped(codec, s, op)
  {
    assert [op][..0] == [] && Ran(codec, s, []) == s;
  }

  /** A response with an input that is not JSON is stored as null and restored as the zero message. */
  lemma InvalidInputIsLost(codec: Codec, r: Response, freshId: string)
    requires Lawful(codec) && !Encodes(codec, r.toolCalls)
    ensures var end := Ran(codec, Session(EMPTY, []), [Responded(r, freshId, false)]);
            end.memory == Memory([AssistantMessage(r)], 0, 1)
            && Restored(codec, end.log) == Restoring(Memory([ZERO], 0, 1), true)
  {
    var s, op := Session(EMPTY, []), Responded(r, freshId, false);
    OneStep(codec, s, op);
    assert [] + [AssistantMessage(r)] == [AssistantMessage(r)];
    assert Restored(codec, []) == Restoring(EMPTY, true);
    StoredStep(codec, EMPTY, s, op);
    assert [] + [ZERO] == [ZERO];
  }

  /** A submission under an identifier the log has stays in memory, and is not there after a restore. */
  lemma TakenTurnIsLost(codec: Codec, s: Session, submit: Submit, freshId: string)
    requires JustRestored(codec, s) && IsNext(s.memory, submit)
    requires submit.turnId != "" && submit.turnId in Ids(s.log)
    ensures var end := Ran(codec, s, [Submitted(submit, freshId, false)]);
            end.memory.messages == s.memory.messages + [UserMessage(submit)]
            && Restored(codec, end.log) == Restoring(s.memory, true)
  {
    OneStep(codec, s, Submitted(submit, freshId, false));
  }
}
