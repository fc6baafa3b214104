/** Four-turn sessions on which compaction, with the suggested actions, does not do what it says. */
module CompactionCases {
  import opened Wrappers
  import opened TurnLog
  import opened Compaction
  import opened CompactionLaws
  import opened CompactionRestore
  import C = Conversation

  /** One turn that is not tool output, and the three that are always kept. */
  ghost predicate OneOlder(log: seq<Turn>) {
    Compactable(log) && |log| == 4 && !IsTool(log[0])
  }

  lemma OneOlderBuckets(log: seq<Turn>)
    requires OneOlder(log)
    ensures Old(log) == [log[0]] && Recent(log) == log[1..]
    ensures Pick(Old(log), false) == [log[0]] && Pick(Old(log), true) == []
  {
    assert Old(log) == [log[0]];
    PickAll([log[0]], false);
  }

  /**
   A client chooses its turns' identifiers. When a recent turn has the one the summary would get, the
   answer is a failure, and the older turn is gone.
   */
  lemma ClashDeletes(log: seq<Turn>, sessionId: string, text: seq<Turn> -> string, encode: string -> string,
                     elsewhere: set<string>)
    requires OneOlder(log) && log[3].id == "compact-" + sessionId + "-" + SignedDecimal(log[0].sequence)
    ensures var after := Compacted(log, map[], SessionSummarizer(sessionId, text, encode, elsewhere));
            after.freed == None && after.log == log[1..]
  {
    var sum := SessionSummarizer(sessionId, text, encode, elsewhere);
    OneOlderBuckets(log);
    assert SummaryOf([log[0]], sum).id == log[3].id;
    assert log[3] in log && log[3] == log[1..][2] && log[3] in Recent(log);
    CompactedIs(log, map[], sum);
    assert [] + log[1..] == log[1..];
  }

  lemma SumOfOne(t: Turn, w: Turn -> nat)
    ensures Sum([t], w) == w(t)
  {
    assert [t][..0] == [];
  }

  lemma NineAreReported(log: seq<Turn>, sum: Summarizer)
    requires OneOlder(log) && !Clashes(log, Summarize, sum) && TurnTokens(log[0]) == 10
    ensures Compacted(log, map[], sum).freed == Some(9)
  {
    FreedIs(log, map[], sum);
    NineAreFreed(log);
  }

  lemma NineAreFreed(log: seq<Turn>)
    requires OneOlder(log) && TurnTokens(log[0]) == 10
    ensures FreedByAll(log, map[]) == 9
  {
    OneOlderBuckets(log);
    SumOfOne(log[0], TurnTokens);
    assert Tokens([]) == 0;
  }

  lemma TurnBecomesSummary(log: seq<Turn>, sum: Summarizer)
    requires OneOlder(log) && !Clashes(log, Summarize, sum)
    ensures Tokens(Compacted(log, map[], sum).log) ==
            Tokens(log) - TurnTokens(log[0]) + TurnTokens(SummaryOf([log[0]], sum))
  {
    OneOlderBuckets(log);
    SumOfOne(log[0], TurnTokens);
    assert Tokens([]) == 0;
    SumAfter(log, map[], sum, TurnTokens);
    SumOfOlderPass(log, Summarize, sum, TurnTokens);
  }

  /** A ten-token turn whose summary costs two: nine are reported freed, eight are. */
  lemma LongSummaryFreesLess(log: seq<Turn>, sum: Summarizer)
    requires OneOlder(log) && !Clashes(log, Summarize, sum)
    requires TurnTokens(log[0]) == 10 && |sum.encode(sum.text([log[0]]))| == 8
    ensures var after := Compacted(log, map[], sum);
            after.freed == Some(9) && Tokens(after.log) == Tokens(log) - 8
  {
    NineAreReported(log, sum);
    TurnBecomesSummary(log, sum);
  }

  /** The older turn was a user's: after a restore, a client that counts on is refused. */
  lemma CountingOnIsRefused(codec: C.Codec, log: seq<Turn>, sum: Summarizer, submit: C.Submit)
    requires OneOlder(log) && !Clashes(log, Summarize, sum) && SummaryReads(codec, log, sum)
    requires C.Restored(codec, log).ok && UserWeight(codec)(log[0]) == 1
    requires C.IsNext(C.Restored(codec, log).memory, submit)
    ensures !C.IsNext(C.Restored(codec, Compacted(log, map[], sum).log).memory, submit)
  {
    OneOlderBuckets(log);
    SumOfOne(log[0], UserWeight(codec));
    CompactedIs(log, map[], sum);
    CountingOnIsAccepted(codec, log, map[], sum, submit);
  }
}
