/** Compaction is safe: what it keeps, what it replaces, and what a restore finds afterwards. */
module CompactionLaws {
  import opened Wrappers
  import opened TurnLog
  import opened Compaction

  /** A stored log that can be compacted: ordered, keyed by identifier, longer than the floor. */
  ghost predicate Compactable(log: seq<Turn>) {
    |log| > KEEP_FLOOR && Increasing(log) && DistinctIds(log)
  }

  // ---------------------------------------------------------------- buckets

  lemma {:induction false} PickExactly(log: seq<Turn>, tool: bool, t: Turn)
    ensures t in Pick(log, tool) <==> t in log && IsTool(t) == tool
  {
    if log != [] {
      var init, last := log[..|log| - 1], log[|log| - 1];
      PickExactly(init, tool, t);
      assert log == init + [last];
    }
  }

  lemma AllPicked(log: seq<Turn>, tool: bool)
    ensures forall t :: t in Pick(log, tool) <==> t in log && IsTool(t) == tool
  {
    forall t ensures t in Pick(log, tool) <==> t in log && IsTool(t) == tool {
      PickExactly(log, tool, t);
    }
  }

  lemma {:induction false} PickAll(log: seq<Turn>, tool: bool)
    requires forall t :: t in log ==> IsTool(t) == tool
    ensures Pick(log, tool) == log && Pick(log, !tool) == []
  {
    if log != [] {
      assert log[|log| - 1] in log;
      PickAll(log[..|log| - 1], tool);
    }
  }

  lemma {:induction false} PickIncreasing(log: seq<Turn>, tool: bool)
    requires Increasing(log)
    ensures Increasing(Pick(log, tool))
  {
    if log != [] {
      var init, last := log[..|log| - 1], log[|log| - 1];
      PickIncreasing(init, tool);
      AllPicked(init, tool);
      JoinIncreasing(Pick(init, tool), [last], last.sequence);
    }
  }

  /** Deleting by identifier, where the identifiers single out one kind, keeps the other kind. */
  lemma {:induction false} WithoutIsPick(log: seq<Turn>, gone: set<string>, tool: bool)
    requires forall t :: t in log ==> (t.id in gone <==> IsTool(t) == tool)
    ensures Without(log, gone) == Pick(log, !tool)
  {
    if log != [] {
      assert log[|log| - 1] in log;
      WithoutIsPick(log[..|log| - 1], gone, tool);
    }
  }

  lemma SameIdSameTurn(log: seq<Turn>, t: Turn, u: Turn)
    requires DistinctIds(log) && t in log && u in log && t.id == u.id
    ensures t == u
  {
    var i :| 0 <= i < |log| && log[i] == t;
    var j :| 0 <= j < |log| && log[j] == u;
  }

  lemma SplitLog(log: seq<Turn>)
    requires Compactable(log)
    ensures log == Old(log) + Recent(log) && |Recent(log)| == KEEP_FLOOR
    ensures Increasing(Old(log)) && Increasing(Recent(log))
    ensures forall t, u :: t in Old(log) && u in Recent(log) ==> t.sequence < u.sequence && t.id != u.id
  {
    forall t, u | t in Old(log) && u in Recent(log) ensures t.sequence < u.sequence && t.id != u.id {
      var i :| 0 <= i < |Old(log)| && Old(log)[i] == t;
      var j :| 0 <= j < |Recent(log)| && Recent(log)[j] == u;
      assert log[i] == t && log[|log| - KEEP_FLOOR + j] == u;
    }
  }

  /** A bucket's identifiers single out its turns among the older ones, and no recent one. */
  lemma BucketIds(log: seq<Turn>, tool: bool)
    requires Compactable(log)
    ensures forall t :: t in Old(log) ==> (t.id in Ids(Pick(Old(log), tool)) <==> IsTool(t) == tool)
    ensures forall t :: t in Recent(log) ==> t.id !in Ids(Pick(Old(log), tool))
  {
    SplitLog(log);
    AllPicked(Old(log), tool);
    forall t | t in Old(log) ensures t.id in Ids(Pick(Old(log), tool)) <==> IsTool(t) == tool {
      if t.id in Ids(Pick(Old(log), tool)) {
        var u :| u in Pick(Old(log), tool) && u.id == t.id;
        SameIdSameTurn(log, t, u);
      }
    }
  }

  /** Deleting a bucket leaves the other bucket and the recent turns. */
  lemma WithoutBucket(log: seq<Turn>, tool: bool)
    requires Compactable(log)
    ensures Without(log, Ids(Pick(Old(log), tool))) == Pick(Old(log), !tool) + Recent(log)
  {
    SplitLog(log);
    BucketIds(log, tool);
    var gone := Ids(Pick(Old(log), tool));
    WithoutConcat(Old(log), Recent(log), gone);
    WithoutIsPick(Old(log), gone, tool);
    WithoutNone(Recent(log), gone);
  }

  // ---------------------------------------------------------------- where the summary goes

  /** The older turns with the first one that is not tool output replaced, and the other such ones gone. */
  function Replaced(log: seq<Turn>, summary: Turn): seq<Turn> {
    if log == [] then []
    else
      var init, last := log[..|log| - 1], log[|log| - 1];
      if IsTool(last) then Replaced(init, summary) + [last]
      else if Pick(init, false) == [] then Replaced(init, summary) + [summary]
      else Replaced(init, summary)
  }

  lemma {:induction false} AllTools(log: seq<Turn>, summary: Turn)
    requires Pick(log, false) == []
    ensures Pick(log, true) == log && Replaced(log, summary) == log
  {
    if log != [] {
      var init, last := log[..|log| - 1], log[|log| - 1];
      AllTools(init, summary);
      assert log == init + [last];
    }
  }

  lemma PickOfSnoc(log: seq<Turn>, t: Turn, tool: bool)
    ensures Pick(log + [t], tool) == if IsTool(t) == tool then Pick(log, tool) + [t] else Pick(log, tool)
  {
    assert (log + [t])[..|log|] == log;
  }

  lemma ReplacedOfSnoc(log: seq<Turn>, t: Turn, summary: Turn)
    ensures Replaced(log + [t], summary) ==
            if IsTool(t) then Replaced(log, summary) + [t]
            else if Pick(log, false) == [] then Replaced(log, summary) + [summary]
            else Replaced(log, summary)
  {
    assert (log + [t])[..|log|] == log;
  }

  /** The summary stands at this place of the log: up to there everything is tool output. */
  ghost predicate SplitsAt(log: seq<Turn>, summary: Turn, i: nat) {
    i < |log| && Pick(log, false) != [] && Pick(log, false)[0] == log[i]
    && Pick(log, true) == log[..i] + Pick(log[i + 1..], true)
    && Replaced(log, summary) == log[..i] + [summary] + Pick(log[i + 1..], true)
  }

  lemma SplitsHere(log: seq<Turn>, t: Turn, summary: Turn)
    requires Pick(log, false) == [] && !IsTool(t)
    ensures SplitsAt(log + [t], summary, |log|)
  {
    AllTools(log, summary);
    PickOfSnoc(log, t, false);
    PickOfSnoc(log, t, true);
    ReplacedOfSnoc(log, t, summary);
    var all := log + [t];
    assert all[..|log|] == log && all[|log| + 1..] == [] && log + [] == log;
    assert (log + [summary]) + [] == log + [summary];
  }

  lemma SnocTail(log: seq<Turn>, t: Turn, i: nat)
    requires i < |log|
    ensures (log + [t])[..i] == log[..i] && (log + [t])[i] == log[i] && (log + [t])[i + 1..] == log[i + 1..] + [t]
  {
  }

  lemma JoinedOnce(before: seq<Turn>, after: seq<Turn>, t: Turn)
    ensures (before + after) + [t] == before + (after + [t])
  {
  }

  lemma StillSplits(log: seq<Turn>, t: Turn, summary: Turn, i: nat)
    requires SplitsAt(log, summary, i)
    ensures SplitsAt(log + [t], summary, i)
  {
    var after := Pick(log[i + 1..], true);
    PickOfSnoc(log, t, false);
    PickOfSnoc(log, t, true);
    ReplacedOfSnoc(log, t, summary);
    PickOfSnoc(log[i + 1..], t, true);
    SnocTail(log, t, i);
    JoinedOnce(log[..i], after, t);
    JoinedOnce(log[..i] + [summary], after, t);
  }

  /** Where the summary goes. */
  lemma {:induction false} SplitAtFirst(log: seq<Turn>, summary: Turn) returns (i: nat)
    requires Pick(log, false) != []
    ensures SplitsAt(log, summary, i)
  {
    var init, last := log[..|log| - 1], log[|log| - 1];
    assert log == init + [last];
    PickOfSnoc(init, last, false);
    if Pick(init, false) == [] {
      SplitsHere(init, last, summary);
      i := |init|;
    } else {
      i := SplitAtFirst(init, summary);
      StillSplits(init, last, summary, i);
    }
  }

  lemma OrderAround(log: seq<Turn>, i: nat)
    requires Increasing(log) && i < |log|
    ensures forall u :: u in log[..i] ==> u.sequence < log[i].sequence
    ensures forall u :: u in log[i + 1..] ==> log[i].sequence < u.sequence
  {
    forall u | u in log[i + 1..] ensures log[i].sequence < u.sequence {
      var k :| 0 <= k < |log[i + 1..]| && log[i + 1..][k] == u;
      assert log[i + 1 + k] == u;
    }
  }

  lemma LandsBetween(before: seq<Turn>, t: Turn, rest: seq<Turn>, recent: seq<Turn>)
    requires forall u :: u in before ==> u.sequence < t.sequence
    requires forall u :: u in rest || u in recent ==> t.sequence < u.sequence
    ensures Inserted((before + rest) + recent, t) == (before + [t] + rest) + recent
  {
    InsertedBetween(before, t, rest + recent);
    assert (before + rest) + recent == before + (rest + recent);
    assert before + [t] + (rest + recent) == (before + [t] + rest) + recent;
  }

  lemma LaterTurns(log: seq<Turn>, i: nat)
    requires Compactable(log) && i < |Old(log)|
    ensures forall u :: u in Pick(Old(log)[i + 1..], true) || u in Recent(log) ==> log[i].sequence < u.sequence
  {
    OrderAround(log, i);
    AllPicked(Old(log)[i + 1..], true);
    assert log[i + 1..] == Old(log)[i + 1..] + Recent(log);
  }

  lemma LandsAt(log: seq<Turn>, i: nat, summary: Turn)
    requires Compactable(log) && i < |Old(log)| && summary.sequence == log[i].sequence
    ensures var rest := Pick(Old(log)[i + 1..], true);
            Inserted((log[..i] + rest) + Recent(log), summary) == (log[..i] + [summary] + rest) + Recent(log)
  {
    OrderAround(log, i);
    LaterTurns(log, i);
    LandsBetween(log[..i], summary, Pick(Old(log)[i + 1..], true), Recent(log));
  }

  /** The summary lands where the first turn it replaces was. */
  lemma SummaryLands(log: seq<Turn>, summary: Turn)
    requires Compactable(log) && Pick(Old(log), false) != []
    requires summary.sequence == Pick(Old(log), false)[0].sequence
    ensures Inserted(Pick(Old(log), true) + Recent(log), summary) == Replaced(Old(log), summary) + Recent(log)
  {
    var i := SplitAtFirst(Old(log), summary);
    LandsAt(log, i, summary);
    assert Old(log)[..i] == log[..i];
  }

  // ---------------------------------------------------------------- the result, in place

  /** The older turns after the older-turns action. */
  function OlderLeft(aged: seq<Turn>, action: ActionName, sum: Summarizer): seq<Turn> {
    if Pick(aged, false) == [] then aged
    else if action == Summarize then Replaced(aged, SummaryOf(Pick(aged, false), sum))
    else if action == Drop then Pick(aged, true)
    else aged
  }

  /** A summary whose identifier a turn that stays, or another session's, already has cannot be stored. */
  ghost predicate Clashes(log: seq<Turn>, action: ActionName, sum: Summarizer)
    requires |log| > KEEP_FLOOR
  {
    var older := Pick(Old(log), false);
    action == Summarize && older != []
    && (SummaryOf(older, sum).id in sum.elsewhere
        || exists t :: t in log && (t in Recent(log) || IsTool(t)) && t.id == SummaryOf(older, sum).id)
  }

  lemma ClashIsExact(log: seq<Turn>, id: string)
    requires Compactable(log)
    ensures id in Ids(Pick(Old(log), true) + Recent(log)) <==>
            exists t :: t in log && (t in Recent(log) || IsTool(t)) && t.id == id
  {
    SplitLog(log);
    AllPicked(Old(log), true);
    var rest := Pick(Old(log), true) + Recent(log);
    assert forall t :: t in rest <==> t in log && (t in Recent(log) || IsTool(t));
  }

  lemma OlderPassIs(log: seq<Turn>, action: ActionName, sum: Summarizer)
    requires Compactable(log)
    ensures var out := OlderPass(log, Pick(Old(log), false), action, sum);
            (out.freed.None? <==> Clashes(log, action, sum))
            && out.log == (if out.freed.None? then Pick(Old(log), true) else OlderLeft(Old(log), action, sum))
                          + Recent(log)
  {
    assert log == Old(log) + Recent(log);
    var older := Pick(Old(log), false);
    if older != [] {
      WithoutBucket(log, false);
      if action == Summarize {
        var s := SummaryOf(older, sum);
        SummaryLands(log, s);
        ClashIsExact(log, s.id);
      }
    }
  }

  lemma {:induction false} ReplacedExactly(log: seq<Turn>, summary: Turn, t: Turn)
    requires Pick(log, false) != []
    ensures t in Replaced(log, summary) <==> t == summary || (t in log && IsTool(t))
  {
    var init, last := log[..|log| - 1], log[|log| - 1];
    assert log == init + [last];
    if Pick(init, false) == [] {
      AllTools(init, summary);
      AllPicked(init, true);
    } else {
      ReplacedExactly(init, summary, t);
    }
  }

  /** Whether the action takes the older turns away. */
  predicate Removes(action: ActionName) {
    action == Summarize || action == Drop
  }

  /** What is left of the older turns: tool output, the others unless removed, and the summary. */
  lemma OlderLeftExactly(aged: seq<Turn>, action: ActionName, sum: Summarizer, t: Turn)
    ensures t in OlderLeft(aged, action, sum) <==>
            (t in aged && (IsTool(t) || !Removes(action)))
            || (action == Summarize && Pick(aged, false) != [] && t == SummaryOf(Pick(aged, false), sum))
  {
    AllPicked(aged, true);
    AllPicked(aged, false);
    if Pick(aged, false) == [] {
      assert t in aged && !IsTool(t) ==> t in Pick(aged, false);
    } else if action == Summarize {
      ReplacedExactly(aged, SummaryOf(Pick(aged, false), sum), t);
    }
  }

  /** The older turns after both actions. */
  function Left(aged: seq<Turn>, actions: map<CategoryName, ActionName>, sum: Summarizer): seq<Turn> {
    var left := OlderLeft(aged, ActionFor(actions, OlderTurns), sum);
    if ActionFor(actions, ToolOutput) == Drop then Pick(left, false) else left
  }

  lemma ToolPassIs(log: seq<Turn>, left: seq<Turn>, action: ActionName)
    requires Compactable(log)
    requires forall t :: t in left ==> (t.id in Ids(Pick(Old(log), true)) <==> IsTool(t))
    ensures ToolPass(left + Recent(log), Pick(Old(log), true), action).log ==
            (if action == Drop then Pick(left, false) else left) + Recent(log)
  {
    var gone := Ids(Pick(Old(log), true));
    BucketIds(log, true);
    WithoutConcat(left, Recent(log), gone);
    WithoutIsPick(left, gone, true);
    WithoutNone(Recent(log), gone);
    if Pick(Old(log), true) == [] {
      WithoutNone(left, gone);
    }
  }

  lemma LeftKinds(log: seq<Turn>, action: ActionName, sum: Summarizer)
    requires Compactable(log) && !Clashes(log, action, sum)
    ensures forall t :: t in OlderLeft(Old(log), action, sum) ==>
                          (t.id in Ids(Pick(Old(log), true)) <==> IsTool(t))
  {
    BucketIds(log, true);
    AllPicked(Old(log), true);
    forall t | t in OlderLeft(Old(log), action, sum)
      ensures t.id in Ids(Pick(Old(log), true)) <==> IsTool(t)
    {
      OlderLeftExactly(Old(log), action, sum, t);
      assert forall u :: u in Old(log) ==> u in log;
    }
  }

  /**
   What compaction leaves. It fails exactly when the summary's identifier is taken, by a turn that
   stays or in another session, and has then already deleted the older turns. Otherwise each bucket is treated in place
   and the recent turns follow unchanged.
   */
  lemma CompactedIs(log: seq<Turn>, actions: map<CategoryName, ActionName>, sum: Summarizer)
    requires Compactable(log)
    ensures var out := Compacted(log, actions, sum);
            (out.freed.None? <==> Clashes(log, ActionFor(actions, OlderTurns), sum))
            && out.log == (if out.freed.None? then Pick(Old(log), true) else Left(Old(log), actions, sum))
                          + Recent(log)
  {
    var action := ActionFor(actions, OlderTurns);
    OlderPassIs(log, action, sum);
    if !Clashes(log, action, sum) {
      LeftKinds(log, action, sum);
      ToolPassIs(log, OlderLeft(Old(log), action, sum), ActionFor(actions, ToolOutput));
    }
  }

  /** The last three turns are never touched, even when compaction fails. */
  lemma LastThreeStay(log: seq<Turn>, actions: map<CategoryName, ActionName>, sum: Summarizer)
    requires Compactable(log)
    ensures var after := Compacted(log, actions, sum).log;
            |after| >= 3 && after[|after| - 3..] == log[|log| - 3..]
  {
    CompactedIs(log, actions, sum);
  }

  /** Exactly which turns are there afterwards. */
  lemma ContentsExactly(log: seq<Turn>, actions: map<CategoryName, ActionName>, sum: Summarizer, t: Turn)
    requires Compactable(log) && Compacted(log, actions, sum).freed.Some?
    ensures var older := Pick(Old(log), false);
            t in Compacted(log, actions, sum).log <==>
            t in Recent(log)
            || (t in Old(log) && if IsTool(t) then ActionFor(actions, ToolOutput) != Drop
                                 else !Removes(ActionFor(actions, OlderTurns)))
            || (ActionFor(actions, OlderTurns) == Summarize && older != [] && t == SummaryOf(older, sum))
  {
    CompactedIs(log, actions, sum);
    OlderLeftExactly(Old(log), ActionFor(actions, OlderTurns), sum, t);
    AllPicked(OlderLeft(Old(log), ActionFor(actions, OlderTurns), sum), false);
  }

  // ---------------------------------------------------------------- order and sequences

  lemma {:induction false} WithoutSelects(log: seq<Turn>, gone: set<string>)
    ensures forall t :: t in Without(log, gone) <==> t in log && t.id !in gone
  {
    if log != [] {
      var init, last := log[..|log| - 1], log[|log| - 1];
      WithoutSelects(init, gone);
      assert log == init + [last];
    }
  }

  lemma {:induction false} WithoutIncreasing(log: seq<Turn>, gone: set<string>)
    requires Increasing(log)
    ensures Increasing(Without(log, gone))
  {
    if log != [] {
      var init, last := log[..|log| - 1], log[|log| - 1];
      WithoutIncreasing(init, gone);
      WithoutSelects(init, gone);
      JoinIncreasing(Without(init, gone), [last], last.sequence);
    }
  }

  lemma {:induction false} InsertedAdds(log: seq<Turn>, t: Turn)
    ensures forall u :: u in Inserted(log, t) <==> u == t || u in log
  {
    if log != [] && log[0].sequence <= t.sequence {
      InsertedAdds(log[1..], t);
      assert log == [log[0]] + log[1..];
    }
  }

  lemma {:induction false} InsertedIncreasing(log: seq<Turn>, t: Turn)
    requires Increasing(log) && forall u :: u in log ==> u.sequence != t.sequence
    ensures Increasing(Inserted(log, t))
  {
    if log != [] {
      assert log[0] in log;
      if t.sequence < log[0].sequence {
        JoinIncreasing([t], log, log[0].sequence);
      } else {
        InsertedIncreasing(log[1..], t);
        InsertedAdds(log[1..], t);
        JoinIncreasing([log[0]], Inserted(log[1..], t), log[0].sequence + 1);
      }
    }
  }

  lemma SameSequenceSameTurn(log: seq<Turn>, t: Turn, u: Turn)
    requires Increasing(log) && t in log && u in log && t.sequence == u.sequence
    ensures t == u
  {
    var i :| 0 <= i < |log| && log[i] == t;
    var j :| 0 <= j < |log| && log[j] == u;
  }

  lemma OlderPassIncreasing(log: seq<Turn>, action: ActionName, sum: Summarizer)
    requires Compactable(log)
    ensures Increasing(OlderPass(log, Pick(Old(log), false), action, sum).log)
  {
    var older := Pick(Old(log), false);
    WithoutIncreasing(log, Ids(older));
    if older != [] && action == Summarize {
      var rest, s := Without(log, Ids(older)), SummaryOf(older, sum);
      WithoutSelects(log, Ids(older));
      AllPicked(Old(log), false);
      assert older[0] in older && older[0] in Old(log) && older[0] in log;
      forall u | u in rest ensures u.sequence != s.sequence {
        if u.sequence == s.sequence {
          SameSequenceSameTurn(log, u, older[0]);
        }
      }
      InsertedIncreasing(rest, s);
    }
  }

  /** Sequence numbers stay strictly increasing, for any actions and even when compaction fails. */
  lemma StaysIncreasing(log: seq<Turn>, actions: map<CategoryName, ActionName>, sum: Summarizer)
    requires Compactable(log)
    ensures Increasing(Compacted(log, actions, sum).log)
  {
    OlderPassIncreasing(log, ActionFor(actions, OlderTurns), sum);
    var first := OlderPass(log, Pick(Old(log), false), ActionFor(actions, OlderTurns), sum);
    WithoutIncreasing(first.log, Ids(Pick(Old(log), true)));
  }

  lemma {:induction false} SequencesAt(log: seq<Turn>)
    ensures |Sequences(log)| == |log| && forall i :: 0 <= i < |log| ==> Sequences(log)[i] == log[i].sequence
  {
    if log != [] {
      SequencesAt(log[..|log| - 1]);
    }
  }

  /** A summary names exactly the turns it replaced: in order, and of the whole log no other. */
  lemma SummaryNamesReplaced(log: seq<Turn>, sum: Summarizer, t: Turn)
    requires Compactable(log) && Pick(Old(log), false) != [] && t in log
    ensures var s := SummaryOf(Pick(Old(log), false), sum);
            (t.sequence in s.originalTurns <==> t in Old(log) && !IsTool(t))
            && s.originalTurns[0] == s.sequence
            && forall i, j :: 0 <= i < j < |s.originalTurns| ==> s.originalTurns[i] < s.originalTurns[j]
  {
    SplitLog(log);
    var older := Pick(Old(log), false);
    SequencesAt(older);
    PickIncreasing(Old(log), false);
    AllPicked(Old(log), false);
    if t.sequence in Sequences(older) {
      var i :| 0 <= i < |older| && Sequences(older)[i] == t.sequence;
      assert older[i] in older && older[i] in Old(log) && older[i] in log;
      SameSequenceSameTurn(log, t, older[i]);
    }
    if t in older {
      var i :| 0 <= i < |older| && older[i] == t;
      assert Sequences(older)[i] == t.sequence;
    }
  }

  // ---------------------------------------------------------------- totals

  lemma {:induction false} SumConcat(a: seq<Turn>, b: seq<Turn>, w: Turn -> nat)
    ensures Sum(a + b, w) == Sum(a, w) + Sum(b, w)
  {
    if b == [] {
      assert a + b == a;
    } else {
      assert (a + b)[..|a + b| - 1] == a + b[..|b| - 1];
      SumConcat(a, b[..|b| - 1], w);
    }
  }

  lemma {:induction false} SumOfBuckets(log: seq<Turn>, w: Turn -> nat)
    ensures Sum(Pick(log, true), w) + Sum(Pick(log, false), w) == Sum(log, w)
  {
    if log != [] {
      SumOfBuckets(log[..|log| - 1], w);
    }
  }

  lemma SumOfParts(aged: seq<Turn>, recent: seq<Turn>, w: Turn -> nat)
    ensures Sum(aged + recent, w) == Sum(Pick(aged, true), w) + Sum(Pick(aged, false), w) + Sum(recent, w)
  {
    SumOfBuckets(aged, w);
    SumConcat(aged, recent, w);
  }

  lemma Rejoined(log: seq<Turn>)
    requires |log| > KEEP_FLOOR
    ensures Old(log) + Recent(log) == log
  {
  }

  lemma SumOfLog(log: seq<Turn>, w: Turn -> nat)
    requires |log| > KEEP_FLOOR
    ensures Sum(log, w) == Sum(Pick(Old(log), true), w) + Sum(Pick(Old(log), false), w) + Sum(Recent(log), w)
  {
    Rejoined(log);
    SumOfParts(Old(log), Recent(log), w);
  }

  lemma {:induction false} SumOfInserted(log: seq<Turn>, t: Turn, w: Turn -> nat)
    ensures Sum(Inserted(log, t), w) == Sum(log, w) + w(t)
  {
    SumConcat([t], log, w);
    assert [t][..0] == [];
    if log != [] && log[0].sequence <= t.sequence {
      SumOfInserted(log[1..], t, w);
      SumConcat([log[0]], Inserted(log[1..], t), w);
      SumConcat([log[0]], log[1..], w);
      assert log == [log[0]] + log[1..];
    }
  }

  lemma SumWithoutOlder(log: seq<Turn>, w: Turn -> nat)
    requires Compactable(log)
    ensures Sum(Without(log, Ids(Pick(Old(log), false))), w) == Sum(log, w) - Sum(Pick(Old(log), false), w)
  {
    WithoutBucket(log, false);
    SumOfLog(log, w);
    SumConcat(Pick(Old(log), true), Recent(log), w);
  }

  /** The weight of the summary that the action makes, if any. */
  function SummaryWeight(older: seq<Turn>, action: ActionName, sum: Summarizer, w: Turn -> nat): nat {
    if action == Summarize && older != [] then w(SummaryOf(older, sum)) else 0
  }

  lemma SumOfOlderPass(log: seq<Turn>, action: ActionName, sum: Summarizer, w: Turn -> nat)
    requires Compactable(log) && !Clashes(log, action, sum)
    ensures var older := Pick(Old(log), false);
            Sum(OlderPass(log, older, action, sum).log, w) ==
            Sum(log, w) - (if Removes(action) then Sum(older, w) else 0) + SummaryWeight(older, action, sum, w)
  {
    OlderPassIs(log, action, sum);
    var older := Pick(Old(log), false);
    if older == [] {
      assert Sum(older, w) == 0;
    } else {
      SumWithoutOlder(log, w);
      SumOfInserted(Without(log, Ids(older)), SummaryOf(older, sum), w);
    }
  }

  lemma {:induction false} PickOfReplaced(log: seq<Turn>, summary: Turn)
    requires !IsTool(summary)
    ensures Pick(Replaced(log, summary), true) == Pick(log, true)
  {
    if log != [] {
      var init, last := log[..|log| - 1], log[|log| - 1];
      PickOfReplaced(init, summary);
      PickOfSnoc(Replaced(init, summary), last, true);
      PickOfSnoc(Replaced(init, summary), summary, true);
    }
  }

  lemma ToolsLeft(aged: seq<Turn>, action: ActionName, sum: Summarizer)
    ensures Pick(OlderLeft(aged, action, sum), true) == Pick(aged, true)
  {
    AllPicked(aged, true);
    PickAll(Pick(aged, true), true);
    if Pick(aged, false) != [] {
      PickOfReplaced(aged, SummaryOf(Pick(aged, false), sum));
    }
  }

  lemma SumOfToolPass(log: seq<Turn>, left: seq<Turn>, action: ActionName, w: Turn -> nat)
    requires Compactable(log) && Pick(left, true) == Pick(Old(log), true)
    requires forall t :: t in left ==> (t.id in Ids(Pick(Old(log), true)) <==> IsTool(t))
    ensures var out := ToolPass(left + Recent(log), Pick(Old(log), true), action);
            Sum(out.log, w) == Sum(left + Recent(log), w) - if action == Drop then Sum(Pick(Old(log), true), w) else 0
  {
    ToolPassIs(log, left, action);
    SumOfBuckets(left, w);
    SumConcat(left, Recent(log), w);
    SumConcat(Pick(left, false), Recent(log), w);
  }

  /** Every total changes by what is removed and by the summary. */
  lemma SumAfter(log: seq<Turn>, actions: map<CategoryName, ActionName>, sum: Summarizer, w: Turn -> nat)
    requires Compactable(log) && !Clashes(log, ActionFor(actions, OlderTurns), sum)
    ensures var first := OlderPass(log, Pick(Old(log), false), ActionFor(actions, OlderTurns), sum);
            Sum(Compacted(log, actions, sum).log, w) ==
            Sum(first.log, w) - if ActionFor(actions, ToolOutput) == Drop then Sum(Pick(Old(log), true), w) else 0
  {
    var action := ActionFor(actions, OlderTurns);
    OlderPassIs(log, action, sum);
    LeftKinds(log, action, sum);
    ToolsLeft(Old(log), action, sum);
    SumOfToolPass(log, OlderLeft(Old(log), action, sum), ActionFor(actions, ToolOutput), w);
  }

  // ---------------------------------------------------------------- tokens

  lemma NineTenthsIsLess(n: nat)
    ensures NineTenths(n) <= n && NineTenths(0) == 0
  {
  }

  function CategoryTokens(categories: seq<Category>): nat {
    if categories == [] then 0
    else CategoryTokens(categories[..|categories| - 1]) + categories[|categories| - 1].tokenCount
  }

  lemma {:induction false} CategoriesConcat(a: seq<Category>, b: seq<Category>)
    ensures CategoryTokens(a + b) == CategoryTokens(a) + CategoryTokens(b)
    ensures AllFreed(a + b) == AllFreed(a) + AllFreed(b)
  {
    if b == [] {
      assert a + b == a;
    } else {
      assert (a + b)[..|a + b| - 1] == a + b[..|b| - 1];
      CategoriesConcat(a, b[..|b| - 1]);
    }
  }

  lemma OneCategory(name: CategoryName, turns: seq<Turn>, suggested: ActionName)
    ensures CategoryTokens(CategoryOf(name, turns, suggested)) == Tokens(turns)
    ensures AllFreed(CategoryOf(name, turns, suggested)) == Freed(suggested, Tokens(turns))
  {
    if turns != [] {
      var c := CategoryOf(name, turns, suggested);
      assert c[..0] == [];
    }
  }

  lemma PlanTotals(log: seq<Turn>)
    requires |log| > KEEP_FLOOR
    ensures CategoryTokens(Categories(log)) == Tokens(log)
    ensures AllFreed(Categories(log)) == NineTenths(Tokens(Pick(Old(log), false))) + Tokens(Pick(Old(log), true))
  {
    var a := CategoryOf(OlderTurns, Pick(Old(log), false), Summarize);
    var b := CategoryOf(ToolOutput, Pick(Old(log), true), Drop);
    var c := CategoryOf(RecentTurns, Recent(log), Keep);
    CategoriesConcat(a + b, c);
    CategoriesConcat(a, b);
    OneCategory(OlderTurns, Pick(Old(log), false), Summarize);
    OneCategory(ToolOutput, Pick(Old(log), true), Drop);
    OneCategory(RecentTurns, Recent(log), Keep);
    SumOfLog(log, TurnTokens);
  }

  lemma EstimateWithinTotal(log: seq<Turn>)
    requires |log| > KEEP_FLOOR
    ensures AllFreed(Categories(log)) <= Tokens(log)
  {
    PlanTotals(log);
    SumOfLog(log, TurnTokens);
    NineTenthsIsLess(Tokens(Pick(Old(log), false)));
  }

  /** The plan's categories account for every token of the session, and it never promises more. */
  lemma PlanAccounts(log: seq<Turn>, window: int)
    requires |log| > KEEP_FLOOR
    ensures CategoryTokens(Planned(log, window).categories) == Tokens(log)
    ensures Planned(log, window).estimatedTokensFreed <= Tokens(log)
  {
    PlanTotals(log);
    EstimateWithinTotal(log);
  }

  /** The guard against a negative share never fires. */
  lemma GuardNeverFires(log: seq<Turn>, window: int)
    requires |log| > KEEP_FLOOR
    ensures Planned(log, window).contextPctAfter == Share(Tokens(log) as int - AllFreed(Categories(log)) as int, window)
  {
    EstimateWithinTotal(log);
  }

  lemma FreedByPass(log: seq<Turn>, older: seq<Turn>, action: ActionName, sum: Summarizer)
    requires OlderPass(log, older, action, sum).freed.Some?
    ensures OlderPass(log, older, action, sum).freed == Some(Freed(action, Tokens(older)))
  {
    assert Tokens([]) == 0 && NineTenths(0) == 0;
  }

  function FreedByDrop(tools: seq<Turn>, action: ActionName): nat {
    if action == Drop then Tokens(tools) else 0
  }

  lemma FreedByTools(first: Outcome, tools: seq<Turn>, action: ActionName)
    requires first.freed.Some?
    ensures ToolsNext(first, tools, action).freed == Some(first.freed.value + FreedByDrop(tools, action))
  {
    assert Tokens([]) == 0;
  }

  /** What is freed, category by category. */
  function FreedByAll(log: seq<Turn>, actions: map<CategoryName, ActionName>): nat
    requires |log| > KEEP_FLOOR
  {
    Freed(ActionFor(actions, OlderTurns), Tokens(Pick(Old(log), false)))
    + FreedByDrop(Pick(Old(log), true), ActionFor(actions, ToolOutput))
  }

  /** The older turns that are not tool output, as compaction treats them. */
  function FirstPass(log: seq<Turn>, actions: map<CategoryName, ActionName>, sum: Summarizer): Outcome
    requires |log| > KEEP_FLOOR
  {
    OlderPass(log, Pick(Old(log), false), ActionFor(actions, OlderTurns), sum)
  }

  lemma FreedByBoth(log: seq<Turn>, actions: map<CategoryName, ActionName>, sum: Summarizer)
    requires |log| > KEEP_FLOOR && FirstPass(log, actions, sum).freed.Some?
    ensures Compacted(log, actions, sum).freed == Some(FreedByAll(log, actions))
  {
    var first, tools := FirstPass(log, actions, sum), Pick(Old(log), true);
    FreedByPass(log, Pick(Old(log), false), ActionFor(actions, OlderTurns), sum);
    FreedByTools(first, tools, ActionFor(actions, ToolOutput));
    assert Compacted(log, actions, sum) == ToolsNext(first, tools, ActionFor(actions, ToolOutput));
  }

  lemma FreedIs(log: seq<Turn>, actions: map<CategoryName, ActionName>, sum: Summarizer)
    requires Compactable(log) && !Clashes(log, ActionFor(actions, OlderTurns), sum)
    ensures Compacted(log, actions, sum).freed == Some(FreedByAll(log, actions))
  {
    OlderPassIs(log, ActionFor(actions, OlderTurns), sum);
    FreedByBoth(log, actions, sum);
  }

  lemma PlannedFreed(log: seq<Turn>, window: int, actions: map<CategoryName, ActionName>)
    requires |log| > KEEP_FLOOR && OlderTurns !in actions && ToolOutput !in actions
    ensures Planned(log, window).estimatedTokensFreed == FreedByAll(log, actions)
  {
    PlanTotals(log);
  }

  /** Applied without overrides, compaction frees exactly what the plan said. */
  lemma FreedAsPlanned(log: seq<Turn>, window: int, actions: map<CategoryName, ActionName>, sum: Summarizer)
    requires Compactable(log) && OlderTurns !in actions && ToolOutput !in actions
    requires !Clashes(log, Summarize, sum)
    ensures Compacted(log, actions, sum).freed == Some(Planned(log, window).estimatedTokensFreed)
  {
    FreedIs(log, actions, sum);
    PlannedFreed(log, window, actions);
  }

  /** The summary costs what summarizing claims to leave: a tenth, rounded up. */
  ghost predicate SummaryCostsATenth(log: seq<Turn>, sum: Summarizer)
    requires |log| > KEEP_FLOOR
  {
    var older := Pick(Old(log), false);
    older == [] || TurnTokens(SummaryOf(older, sum)) == Tokens(older) - NineTenths(Tokens(older))
  }

  /**
   What the answer reports as freed is what the session lost exactly when nothing was summarized or
   the summary costs the tenth it is taken to cost.
   */
  lemma FreedIsTrue(log: seq<Turn>, actions: map<CategoryName, ActionName>, sum: Summarizer)
    requires Compactable(log) && !Clashes(log, ActionFor(actions, OlderTurns), sum)
    ensures var out := Compacted(log, actions, sum);
            out.freed.Some?
            && (Tokens(out.log) + out.freed.value == Tokens(log) <==>
                (ActionFor(actions, OlderTurns) == Summarize ==> SummaryCostsATenth(log, sum)))
  {
    FreedIs(log, actions, sum);
    SumAfter(log, actions, sum, TurnTokens);
    SumOfOlderPass(log, ActionFor(actions, OlderTurns), sum, TurnTokens);
    assert Tokens([]) == 0;
  }
}
