/** What the caller's actions do: each category kept, dropped or left to its suggestion. */
module CompactionActions {
  import opened Wrappers
  import opened TurnLog
  import opened Compaction
  import opened CompactionLaws

  /** The caller names an action for the category that keeps it: neither a drop nor, for older turns, a summary. */
  predicate Kept(actions: map<CategoryName, ActionName>, name: CategoryName) {
    name in actions && actions[name] != Drop && (name == OlderTurns ==> actions[name] != Summarize)
  }

  predicate Dropped(actions: map<CategoryName, ActionName>, name: CategoryName) {
    name in actions && actions[name] == Drop
  }

  /** The last three turns, whatever their role. */
  function LastThree(log: seq<Turn>): seq<Turn>
    requires |log| > 3
  {
    log[|log| - 3..]
  }

  /** Keeping both categories changes nothing and frees nothing. */
  lemma KeepingChangesNothing(log: seq<Turn>, actions: map<CategoryName, ActionName>, sum: Summarizer)
    requires Kept(actions, OlderTurns) && Kept(actions, ToolOutput)
    ensures Compacted(log, actions, sum) == Outcome(log, Some(0), [])
  {
  }

  /** Actions for anything but the two older categories are ignored. */
  lemma OtherCategoriesAreIgnored(log: seq<Turn>, a: map<CategoryName, ActionName>, b: map<CategoryName, ActionName>,
                                  sum: Summarizer)
    requires forall name :: name == OlderTurns || name == ToolOutput ==>
                              (name in a <==> name in b) && (name in a ==> a[name] == b[name])
    ensures Compacted(log, a, sum) == Compacted(log, b, sum)
  {
    assert OlderTurns in a <==> OlderTurns in b;
    assert ToolOutput in a <==> ToolOutput in b;
  }

  /** Tool turns of the whole log stay when the caller keeps them, even when the summary cannot be stored. */
  lemma KeptToolsStay(log: seq<Turn>, actions: map<CategoryName, ActionName>, sum: Summarizer, t: Turn)
    requires Compactable(log) && Kept(actions, ToolOutput) && t in log && t.role == ToolRole
    ensures t in Compacted(log, actions, sum).log
  {
    CompactedIs(log, actions, sum);
    AllPicked(Old(log), true);
    OlderLeftExactly(Old(log), ActionFor(actions, OlderTurns), sum, t);
    assert log == Old(log) + Recent(log);
  }

  /** Older tool turns go when they are dropped, or not named, unless the summary cannot be stored. */
  lemma OtherwiseToolsGo(log: seq<Turn>, actions: map<CategoryName, ActionName>, sum: Summarizer, t: Turn)
    requires Compactable(log) && (ToolOutput !in actions || Dropped(actions, ToolOutput))
    requires Compacted(log, actions, sum).freed.Some? && t in Compacted(log, actions, sum).log && t.role == ToolRole
    ensures t in LastThree(log)
  {
    CompactedIs(log, actions, sum);
    AllPicked(OlderLeft(Old(log), ActionFor(actions, OlderTurns), sum), false);
  }

  /** Dropping the older turns and keeping tool output leaves exactly the tool turns and the last three. */
  lemma DroppingLeavesTools(log: seq<Turn>, actions: map<CategoryName, ActionName>, sum: Summarizer, t: Turn)
    requires Compactable(log) && Dropped(actions, OlderTurns) && Kept(actions, ToolOutput)
    ensures Compacted(log, actions, sum).freed.Some?
    ensures t in Compacted(log, actions, sum).log <==> t in LastThree(log) || (t in log && t.role == ToolRole)
  {
    CompactedIs(log, actions, sum);
    AllPicked(Old(log), false);
    AllPicked(Old(log), true);
    assert log == Old(log) + Recent(log);
    OlderLeftExactly(Old(log), Drop, sum, t);
  }

  /** Dropping both leaves the last three alone. */
  lemma DroppingBothLeavesThree(log: seq<Turn>, actions: map<CategoryName, ActionName>, sum: Summarizer)
    requires Compactable(log) && Dropped(actions, OlderTurns) && Dropped(actions, ToolOutput)
    ensures Compacted(log, actions, sum).log == LastThree(log)
    ensures Compacted(log, actions, sum).freed.Some?
  {
    CompactedIs(log, actions, sum);
    var left := OlderLeft(Old(log), Drop, sum);
    forall t | t in left ensures IsTool(t) {
      OlderLeftExactly(Old(log), Drop, sum, t);
    }
    PickAll(left, true);
    assert [] + LastThree(log) == LastThree(log);
  }

  /** Keeping the older turns and dropping tool output leaves all that is not older tool output. */
  lemma KeepingLeavesTexts(log: seq<Turn>, actions: map<CategoryName, ActionName>, sum: Summarizer, t: Turn)
    requires Compactable(log) && Kept(actions, OlderTurns) && Dropped(actions, ToolOutput)
    ensures Compacted(log, actions, sum).freed.Some?
    ensures t in Compacted(log, actions, sum).log <==> t in LastThree(log) || (t in log && t.role != ToolRole)
  {
    CompactedIs(log, actions, sum);
    var left := OlderLeft(Old(log), actions[OlderTurns], sum);
    AllPicked(left, false);
    OlderLeftExactly(Old(log), actions[OlderTurns], sum, t);
    assert log == Old(log) + Recent(log);
  }

  /** A category that the caller leaves out gets its suggestion: a summary, or a drop. */
  predicate Suggested(actions: map<CategoryName, ActionName>) {
    (OlderTurns !in actions || actions[OlderTurns] == Summarize)
    && (ToolOutput !in actions || actions[ToolOutput] == Drop)
  }

  lemma {:induction false} ReplacedAsOne(aged: seq<Turn>, summary: Turn)
    requires !IsTool(summary)
    ensures Pick(Replaced(aged, summary), false) == if Pick(aged, false) == [] then [] else [summary]
  {
    if aged != [] {
      var init, last := aged[..|aged| - 1], aged[|aged| - 1];
      ReplacedAsOne(init, summary);
      PickOfSnoc(Replaced(init, summary), last, false);
      PickOfSnoc(Replaced(init, summary), summary, false);
    }
  }

  lemma SuggestionsLeave(log: seq<Turn>, actions: map<CategoryName, ActionName>, sum: Summarizer)
    requires Compactable(log) && Suggested(actions) && Compacted(log, actions, sum).freed.Some?
    ensures var older := Pick(Old(log), false);
            Compacted(log, actions, sum).log ==
            (if older == [] then [] else [SummaryOf(older, sum)]) + LastThree(log)
  {
    CompactedIs(log, actions, sum);
    var older := Pick(Old(log), false);
    if older != [] {
      ReplacedAsOne(Old(log), SummaryOf(older, sum));
    }
  }

  /** The summary is an assistant's compacted turn in the place of the first turn it stands for. */
  lemma SummarySays(older: seq<Turn>, sum: Summarizer)
    requires older != []
    ensures var t := SummaryOf(older, sum);
            t.sequence == older[0].sequence && t.id == sum.name(older[0].sequence)
            && t.role == AssistantRole && t.compacted && t.compactedSummary == sum.text(older)
            && t.content == sum.encode(sum.text(older)) && t.toolCalls == "" && t.usage == NO_USAGE
  {
  }

  /**
   With neither category named, or both as suggested, what is left is one summary of the older turns
   that are not tool output, if there are any, and the last three.
   */
  lemma SuggestionsLeaveOneSummary(log: seq<Turn>, actions: map<CategoryName, ActionName>, sum: Summarizer)
    requires Compactable(log) && Suggested(actions) && Compacted(log, actions, sum).freed.Some?
    ensures var older, after := Pick(Old(log), false), Compacted(log, actions, sum).log;
            if older == [] then after == LastThree(log)
            else |after| == 4 && after[1..] == LastThree(log) && after[0] == SummaryOf(older, sum)
  {
    SuggestionsLeave(log, actions, sum);
    assert [] + LastThree(log) == LastThree(log);
    if Pick(Old(log), false) != [] {
      var first := [SummaryOf(Pick(Old(log), false), sum)];
      assert (first + LastThree(log))[1..] == LastThree(log);
    }
  }

  // ---------------------------------------------------------------- what is reported

  /** A turn weighs what it declares, or a quarter of its content when it declares nothing. */
  lemma TurnWeighs(t: Turn)
    ensures Tokens([t]) == if t.usage.inputTokens + t.usage.outputTokens > 0
                           then t.usage.inputTokens + t.usage.outputTokens else |t.content| / 4
  {
    assert [t][..0] == [];
    assert Sum([t], TurnTokens) == Sum([], TurnTokens) + TurnTokens(t);
  }

  /** The plan: older turns, tool output and recent turns, each only when there are any, and its suggestion. */
  lemma PlanSays(log: seq<Turn>, window: int)
    requires |log| > 3
    ensures var older, tools := Pick(Old(log), false), Pick(Old(log), true);
            var plan := Planned(log, window);
            plan.categories ==
            (if older == [] then [] else [Category(OlderTurns, Tokens(older), Summarize)])
            + (if tools == [] then [] else [Category(ToolOutput, Tokens(tools), Drop)])
            + [Category(RecentTurns, Tokens(LastThree(log)), Keep)]
            && plan.estimatedTokensFreed == Tokens(older) * 9 / 10 + Tokens(tools)
            && plan.contextPctBefore == Fraction(Tokens(log), if window > 0 then window else 200000)
  {
    var older, tools := Pick(Old(log), false), Pick(Old(log), true);
    var a, b := CategoryOf(OlderTurns, older, Summarize), CategoryOf(ToolOutput, tools, Drop);
    var c := [Category(RecentTurns, Tokens(LastThree(log)), Keep)];
    assert Categories(log) == a + b + c;
    FreedOfConcat(a, b);
    FreedOfConcat(a + b, c);
    FreedOfOne(OlderTurns, older, Summarize);
    FreedOfOne(ToolOutput, tools, Drop);
    FreedOfOne(RecentTurns, LastThree(log), Keep);
  }

  lemma {:induction false} FreedOfConcat(a: seq<Category>, b: seq<Category>)
    ensures AllFreed(a + b) == AllFreed(a) + AllFreed(b)
  {
    if b == [] {
      assert a + b == a;
    } else {
      assert (a + b)[..|a + b| - 1] == a + b[..|b| - 1];
      FreedOfConcat(a, b[..|b| - 1]);
    }
  }

  lemma FreedOfOne(name: CategoryName, turns: seq<Turn>, suggested: ActionName)
    ensures AllFreed(CategoryOf(name, turns, suggested)) ==
            if suggested == Drop then Tokens(turns) else if suggested == Summarize then Tokens(turns) * 9 / 10 else 0
  {
    var all := CategoryOf(name, turns, suggested);
    if turns != [] {
      assert all[..0] == [];
    }
  }

  /** The answer's lines: how many turns were summarized or dropped, and nothing for what was kept. */
  lemma AnswerSays(log: seq<Turn>, actions: map<CategoryName, ActionName>, sum: Summarizer)
    requires |log| > 3 && Compacted(log, actions, sum).freed.Some?
    ensures var older, tools := |Pick(Old(log), false)|, |Pick(Old(log), true)|;
            Compacted(log, actions, sum).lines ==
            (if older == 0 || Kept(actions, OlderTurns) then []
             else if Dropped(actions, OlderTurns) then [DroppedOlder(older)]
             else [SummarizedOlder(older)])
            + (if tools == 0 || Kept(actions, ToolOutput) then [] else [DroppedTools(tools)])
  {
  }
}
