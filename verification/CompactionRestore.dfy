/** What a session finds when it is restored from a compacted log. */
module CompactionRestore {
  import opened Wrappers
  import opened Messages
  import opened TurnLog
  import opened Compaction
  import opened CompactionLaws
  import C = Conversation

  function SummaryMessage(text: string): Message {
    Message("assistant", text, [], [], [], map[])
  }

  /** Summaries are stored as assistant messages. */
  ghost predicate EncodesSummaries(codec: C.Codec, sum: Summarizer) {
    C.Lawful(codec) && forall text: string :: sum.encode(text) == codec.write(SummaryMessage(text))
  }

  // ---------------------------------------------------------------- what restoring a log gives

  lemma {:induction false} RestoresExactly(codec: C.Codec, log: seq<Turn>)
    ensures C.Restored(codec, log).ok <==> forall t :: t in log ==> C.Decoded(codec, t).Some?
  {
    if log != [] {
      var init, last := log[..|log| - 1], log[|log| - 1];
      RestoresExactly(codec, init);
      assert log == init + [last];
    }
  }

  /** The storage counter of a restored log is its last sequence number. */
  lemma {:induction false} RestoredStorage(codec: C.Codec, log: seq<Turn>)
    requires Increasing(log) && C.Restored(codec, log).ok
    ensures C.Restored(codec, log).memory.storageSequence ==
            if log != [] && log[|log| - 1].sequence > 0 then log[|log| - 1].sequence else 0
  {
    if log != [] {
      RestoredStorage(codec, log[..|log| - 1]);
    }
  }

  /** One for a turn that restores as a user message. */
  function UserWeight(codec: C.Codec): Turn -> nat {
    t => var m := C.Decoded(codec, t); if m.Some? && m.value.role == "user" then 1 else 0
  }

  lemma {:induction false} RestoredUsers(codec: C.Codec, log: seq<Turn>)
    requires C.Restored(codec, log).ok
    ensures C.Restored(codec, log).memory.userSequence == Sum(log, UserWeight(codec))
  {
    if log != [] {
      RestoredUsers(codec, log[..|log| - 1]);
    }
  }

  /** The summary of the older turns reads back as the message it was made from. */
  ghost predicate SummaryReads(codec: C.Codec, log: seq<Turn>, sum: Summarizer)
    requires |log| > KEEP_FLOOR
  {
    var older := Pick(Old(log), false);
    older == [] || C.Decoded(codec, SummaryOf(older, sum)) == Some(SummaryMessage(sum.text(older)))
  }

  /** It does with every codec that reads what it wrote. */
  lemma LawfulSummaryReads(codec: C.Codec, log: seq<Turn>, sum: Summarizer)
    requires |log| > KEEP_FLOOR && EncodesSummaries(codec, sum)
    ensures SummaryReads(codec, log, sum)
  {
    var older := Pick(Old(log), false);
    if older != [] {
      var m := SummaryMessage(sum.text(older));
      assert C.ReadBack(codec, m) == m;
    }
  }

  lemma SummaryIsNoUser(codec: C.Codec, log: seq<Turn>, action: ActionName, sum: Summarizer)
    requires |log| > KEEP_FLOOR && SummaryReads(codec, log, sum)
    ensures SummaryWeight(Pick(Old(log), false), action, sum, UserWeight(codec)) == 0
  {
  }

  // ---------------------------------------------------------------- after compaction

  lemma CompactedDecodes(codec: C.Codec, log: seq<Turn>, actions: map<CategoryName, ActionName>, sum: Summarizer)
    requires Compactable(log) && SummaryReads(codec, log, sum) && C.Restored(codec, log).ok
    requires Compacted(log, actions, sum).freed.Some?
    ensures C.Restored(codec, Compacted(log, actions, sum).log).ok
  {
    var after, older := Compacted(log, actions, sum).log, Pick(Old(log), false);
    RestoresExactly(codec, log);
    RestoresExactly(codec, after);
    forall t | t in after ensures C.Decoded(codec, t).Some? {
      ContentsExactly(log, actions, sum, t);
    }
  }

  /**
   Restore then append never collides: a compacted log restores with the storage counter of the
   original, so the next turn's sequence number is above every stored turn and every replaced one.
   */
  lemma NextSequenceIsFree(codec: C.Codec, log: seq<Turn>, actions: map<CategoryName, ActionName>, sum: Summarizer)
    requires Compactable(log) && SummaryReads(codec, log, sum) && C.Restored(codec, log).ok
    requires Compacted(log, actions, sum).freed.Some?
    ensures var after := Compacted(log, actions, sum).log;
            var next := C.Restored(codec, after).memory.storageSequence + 1;
            C.Restored(codec, after).ok
            && next == C.Restored(codec, log).memory.storageSequence + 1
            && (forall t :: t in after || t in log ==> t.sequence < next)
  {
    var after := Compacted(log, actions, sum).log;
    CompactedDecodes(codec, log, actions, sum);
    StaysIncreasing(log, actions, sum);
    LastThreeStay(log, actions, sum);
    assert after[|after| - 1] == after[|after| - 3..][2] == log[|log| - 3..][2] == log[|log| - 1];
    RestoredStorage(codec, log);
    RestoredStorage(codec, after);
    forall t | t in after || t in log ensures t.sequence <= log[|log| - 1].sequence {
      if t in log {
        var i :| 0 <= i < |log| && log[i] == t;
      } else {
        var i :| 0 <= i < |after| && after[i] == t;
      }
    }
  }

  /** How many of the removed turns restore as user messages. */
  function RemovedUsers(codec: C.Codec, log: seq<Turn>, actions: map<CategoryName, ActionName>): nat
    requires |log| > KEEP_FLOOR
  {
    (if Removes(ActionFor(actions, OlderTurns)) then Sum(Pick(Old(log), false), UserWeight(codec)) else 0)
    + if ActionFor(actions, ToolOutput) == Drop then Sum(Pick(Old(log), true), UserWeight(codec)) else 0
  }

  /** Compaction moves the wire counter back by the number of user messages it removes. */
  lemma WireCounterAfter(codec: C.Codec, log: seq<Turn>, actions: map<CategoryName, ActionName>, sum: Summarizer)
    requires Compactable(log) && SummaryReads(codec, log, sum) && C.Restored(codec, log).ok
    requires Compacted(log, actions, sum).freed.Some?
    ensures C.Restored(codec, Compacted(log, actions, sum).log).memory.userSequence ==
            C.Restored(codec, log).memory.userSequence - RemovedUsers(codec, log, actions)
  {
    var w := UserWeight(codec);
    CompactedIs(log, actions, sum);
    CompactedDecodes(codec, log, actions, sum);
    RestoredUsers(codec, log);
    RestoredUsers(codec, Compacted(log, actions, sum).log);
    SumAfter(log, actions, sum, w);
    SumOfOlderPass(log, ActionFor(actions, OlderTurns), sum, w);
    SummaryIsNoUser(codec, log, ActionFor(actions, OlderTurns), sum);
  }

  /**
   A client that goes on counting submissions across a compaction and a restore is accepted exactly
   when no user message was removed.
   */
  lemma CountingOnIsAccepted(codec: C.Codec, log: seq<Turn>, actions: map<CategoryName, ActionName>, sum: Summarizer,
                             submit: C.Submit)
    requires Compactable(log) && SummaryReads(codec, log, sum) && C.Restored(codec, log).ok
    requires Compacted(log, actions, sum).freed.Some?
    requires C.IsNext(C.Restored(codec, log).memory, submit)
    ensures C.IsNext(C.Restored(codec, Compacted(log, actions, sum).log).memory, submit) <==>
            RemovedUsers(codec, log, actions) == 0
  {
    WireCounterAfter(codec, log, actions, sum);
  }
}
