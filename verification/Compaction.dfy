/**
 Compacting a session's stored turns (internal/runtime/compact.go): a plan over age and role, and its
 application to the store.
 */
module Compaction {
  import opened Wrappers
  import opened TurnLog
  import opened Numbers

  const KEEP_FLOOR := 3
  const DEFAULT_WINDOW := 200000

  datatype CategoryName = OlderTurns | ToolOutput | RecentTurns | UnknownCategory(name: string)

  datatype ActionName = Keep | Summarize | Drop | Pin | UnknownAction(name: string)

  datatype Category = Category(name: CategoryName, tokenCount: nat, suggested: ActionName)

  /** A share of the context window; the window is positive. */
  datatype Fraction = Fraction(tokens: int, window: int)

  const NOTHING := Fraction(0, 1)

  datatype Plan = Plan(categories: seq<Category>, estimatedTokensFreed: nat, contextPctBefore: Fraction,
                       contextPctAfter: Fraction)

  datatype Line = SummarizedOlder(n: nat) | DroppedOlder(n: nat) | DroppedTools(n: nat)

  datatype Response = Response(applied: bool, tokensFreed: nat, contextPctAfter: Fraction, lines: seq<Line>)

  // ---------------------------------------------------------------- buckets and tokens

  predicate IsTool(t: Turn) {
    t.role.ToolRole?
  }

  /** The turns of a log that are tool output, or the ones that are not. */
  function Pick(log: seq<Turn>, tool: bool): seq<Turn> {
    if log == [] then []
    else
      var picked, last := Pick(log[..|log| - 1], tool), log[|log| - 1];
      if IsTool(last) == tool then picked + [last] else picked
  }

  function TurnTokens(t: Turn): nat {
    if t.usage.inputTokens + t.usage.outputTokens > 0 then t.usage.inputTokens + t.usage.outputTokens
    else |t.content| / 4
  }

  /** The total of a weight over a log. */
  function Sum(log: seq<Turn>, w: Turn -> nat): nat {
    if log == [] then 0 else Sum(log[..|log| - 1], w) + w(log[|log| - 1])
  }

  function Tokens(log: seq<Turn>): nat {
    Sum(log, TurnTokens)
  }

  /** What summarizing frees: nine tenths, rounded down, in the plan and in its application alike. */
  function NineTenths(n: nat): nat {
    n * 9 / 10
  }

  function Freed(action: ActionName, tokens: nat): nat {
    if action == Drop then tokens else if action == Summarize then NineTenths(tokens) else 0
  }

  function WindowOr(window: int): int
    ensures WindowOr(window) > 0
  {
    if window > 0 then window else DEFAULT_WINDOW
  }

  function Share(tokens: int, window: int): Fraction {
    Fraction(tokens, WindowOr(window))
  }

  // ---------------------------------------------------------------- the plan

  function Old(log: seq<Turn>): seq<Turn>
    requires |log| > KEEP_FLOOR
  {
    log[..|log| - KEEP_FLOOR]
  }

  function Recent(log: seq<Turn>): seq<Turn>
    requires |log| > KEEP_FLOOR
  {
    log[|log| - KEEP_FLOOR..]
  }

  function CategoryOf(name: CategoryName, turns: seq<Turn>, suggested: ActionName): seq<Category> {
    if turns == [] then [] else [Category(name, Tokens(turns), suggested)]
  }

  function Categories(log: seq<Turn>): seq<Category>
    requires |log| > KEEP_FLOOR
  {
    CategoryOf(OlderTurns, Pick(Old(log), false), Summarize) + CategoryOf(ToolOutput, Pick(Old(log), true), Drop)
    + CategoryOf(RecentTurns, Recent(log), Keep)
  }

  function AllFreed(categories: seq<Category>): nat {
    if categories == [] then 0
    else
      var last := categories[|categories| - 1];
      AllFreed(categories[..|categories| - 1]) + Freed(last.suggested, last.tokenCount)
  }

  function AtLeastZero(share: Fraction): Fraction {
    if share.tokens < 0 then NOTHING else share
  }

  function Planned(log: seq<Turn>, window: int): Plan {
    if |log| <= KEEP_FLOOR then Plan([], 0, NOTHING, NOTHING)
    else
      var freed := AllFreed(Categories(log));
      Plan(Categories(log), freed, Share(Tokens(log), window),
           AtLeastZero(Share(Tokens(log) as int - freed as int, window)))
  }

  method SumTurnTokens(turns: seq<Turn>) returns (total: nat)
    ensures total == Tokens(turns)
  {
    total := 0;
    for i := 0 to |turns|
      invariant total == Tokens(turns[..i])
    {
      assert turns[..i + 1][..i] == turns[..i];
      var declared := turns[i].usage.inputTokens + turns[i].usage.outputTokens;
      if declared > 0 {
        total := total + declared;
        continue;
      }
      total := total + |turns[i].content| / 4;
    }
    assert turns[..|turns|] == turns;
  }

  /** The older turns in two buckets, and the recent ones whatever their role. */
  method Bucket(turns: seq<Turn>) returns (older: seq<Turn>, tools: seq<Turn>, recent: seq<Turn>)
    requires |turns| > KEEP_FLOOR
    ensures older == Pick(Old(turns), false) && tools == Pick(Old(turns), true) && recent == Recent(turns)
  {
    var start := |turns| - KEEP_FLOOR;
    older, tools, recent := [], [], [];
    for i := 0 to |turns|
      invariant var k := if i < start then i else start;
                older == Pick(turns[..k], false) && tools == Pick(turns[..k], true)
      invariant recent == if i < start then [] else turns[start..i]
    {
      if i >= start {
        recent := recent + [turns[i]];
        continue;
      }
      assert turns[..i + 1][..i] == turns[..i];
      if IsTool(turns[i]) {
        tools := tools + [turns[i]];
        continue;
      }
      older := older + [turns[i]];
    }
  }

  method EstimateFreed(categories: seq<Category>) returns (freed: nat)
    ensures freed == AllFreed(categories)
  {
    freed := 0;
    for i := 0 to |categories|
      invariant freed == AllFreed(categories[..i])
    {
      assert categories[..i + 1][..i] == categories[..i];
      match categories[i].suggested {
        case Drop => freed := freed + categories[i].tokenCount;
        case Summarize => freed := freed + NineTenths(categories[i].tokenCount);
        case _ =>
      }
    }
    assert categories[..|categories|] == categories;
  }

  /** A bucket becomes a category unless it is empty. */
  method AddCategory(categories: seq<Category>, name: CategoryName, turns: seq<Turn>, suggested: ActionName)
    returns (more: seq<Category>)
    ensures more == categories + CategoryOf(name, turns, suggested)
  {
    more := categories;
    if |turns| > 0 {
      var tokens := SumTurnTokens(turns);
      more := more + [Category(name, tokens, suggested)];
    }
  }

  method BuildCategories(turns: seq<Turn>) returns (categories: seq<Category>)
    requires |turns| > KEEP_FLOOR
    ensures categories == Categories(turns)
  {
    var older, tools, recent := Bucket(turns);
    categories := AddCategory([], OlderTurns, older, Summarize);
    categories := AddCategory(categories, ToolOutput, tools, Drop);
    categories := AddCategory(categories, RecentTurns, recent, Keep);
    assert [] + CategoryOf(OlderTurns, older, Summarize) == CategoryOf(OlderTurns, older, Summarize);
  }

  method BuildCompactPlan(turns: seq<Turn>, window: int) returns (plan: Plan)
    ensures plan == Planned(turns, window)
  {
    if |turns| <= KEEP_FLOOR {
      return Plan([], 0, NOTHING, NOTHING);
    }
    var categories := BuildCategories(turns);
    var before := SumTurnTokens(turns);
    var freed := EstimateFreed(categories);
    var left: int := before as int - freed as int;
    var after := Share(left, window);
    if after.tokens < 0 {
      after := NOTHING;
    }
    plan := Plan(categories, freed, Share(before, window), after);
  }

  // ---------------------------------------------------------------- applying it

  /** The caller's action for a category that is present, or the suggested one. */
  function ActionFor(actions: map<CategoryName, ActionName>, name: CategoryName): ActionName {
    if name in actions then actions[name] else match name
      case OlderTurns => Summarize
      case ToolOutput => Drop
      case _ => Keep
  }

  function Sequences(log: seq<Turn>): seq<int> {
    if log == [] then [] else Sequences(log[..|log| - 1]) + [log[|log| - 1].sequence]
  }

  /**
   What the summary turn is made with: its identifier from the sequence number it takes, the
   summarizer, and the encoding of a text as an assistant message; and the identifiers it cannot have
   because other sessions have them.
   */
  datatype Summarizer = Summarizer(name: int -> string, text: seq<Turn> -> string, encode: string -> string,
                                   elsewhere: set<string>)

  /** The summarizer of a session: identifiers carry the session and the sequence number. */
  function SessionSummarizer(sessionId: string, text: seq<Turn> -> string, encode: string -> string,
                             elsewhere: set<string>): Summarizer {
    Summarizer(n => "compact-" + sessionId + "-" + SignedDecimal(n), text, encode, elsewhere)
  }

  /** The summary turn that takes the place of these turns. */
  function SummaryOf(older: seq<Turn>, sum: Summarizer): Turn
    requires older != []
  {
    var text, n := sum.text(older), older[0].sequence;
    Turn(sum.name(n), n, AssistantRole, sum.encode(text), "", NO_USAGE, true, text, Sequences(older))
  }

  function SignedDecimal(n: int): string {
    if n < 0 then "-" + Decimal(-n) else Decimal(n)
  }

  /** The store and the answer after a step, None when the step failed. */
  datatype Outcome = Outcome(log: seq<Turn>, freed: Option<nat>, lines: seq<Line>)

  function OlderPass(log: seq<Turn>, older: seq<Turn>, action: ActionName, sum: Summarizer): Outcome {
    if older == [] then Outcome(log, Some(0), [])
    else match action
      case Summarize =>
        var rest, summary := Without(log, Ids(older)), SummaryOf(older, sum);
        if summary.id in Ids(rest) + sum.elsewhere then Outcome(rest, None, [])
        else Outcome(Inserted(rest, summary), Some(NineTenths(Tokens(older))), [SummarizedOlder(|older|)])
      case Drop => Outcome(Without(log, Ids(older)), Some(Tokens(older)), [DroppedOlder(|older|)])
      case _ => Outcome(log, Some(0), [])
  }

  function ToolPass(log: seq<Turn>, tools: seq<Turn>, action: ActionName): Outcome {
    if action == Drop && tools != [] then
      Outcome(Without(log, Ids(tools)), Some(Tokens(tools)), [DroppedTools(|tools|)])
    else Outcome(log, Some(0), [])
  }

  /** The tool pass after the older pass, unless that failed. */
  function ToolsNext(first: Outcome, tools: seq<Turn>, action: ActionName): Outcome {
    if first.freed.None? then first
    else
      var second := ToolPass(first.log, tools, action);
      Outcome(second.log, Some(first.freed.value + second.freed.value), first.lines + second.lines)
  }

  method DeleteTurns(store: Store, turns: seq<Turn>)
    modifies store`log
    ensures store.log == Without(old(store.log), Ids(turns))
  {
    WithoutNone(store.log, {});
    assert turns[..0] == [] && Ids([]) == {};
    for i := 0 to |turns|
      invariant store.log == Without(old(store.log), Ids(turns[..i]))
    {
      assert Ids(turns[..i + 1]) == Ids(turns[..i]) + {turns[i].id} by {
        assert turns[..i + 1] == turns[..i] + [turns[i]];
      }
      WithoutTwice(old(store.log), Ids(turns[..i]), {turns[i].id});
      store.DeleteTurn(turns[i].id);
    }
    assert turns[..|turns|] == turns;
  }

  method ReplaceTurnsWithSummary(store: Store, originals: seq<Turn>, summary: Turn) returns (ok: bool)
    modifies store`log
    ensures var rest := Without(old(store.log), Ids(originals));
            ok == (summary.id !in Ids(rest) + store.elsewhere)
            && store.log == if ok then Inserted(rest, summary) else rest
  {
    DeleteTurns(store, originals);
    ok := store.CreateTurn(summary);
  }

  /** The store after applying the actions, what was freed, and what was done. */
  function Compacted(log: seq<Turn>, actions: map<CategoryName, ActionName>, sum: Summarizer): Outcome {
    if |log| <= KEEP_FLOOR then Outcome(log, Some(0), [])
    else
      ToolsNext(OlderPass(log, Pick(Old(log), false), ActionFor(actions, OlderTurns), sum), Pick(Old(log), true),
                ActionFor(actions, ToolOutput))
  }

  /** Every category suggests its default action, and a bucket that is not empty has its category. */
  lemma PlanNames(log: seq<Turn>)
    requires |log| > KEEP_FLOOR
    ensures forall c :: c in Categories(log) ==> c.suggested == ActionFor(map[], c.name)
    ensures Pick(Old(log), false) != [] ==> exists c :: c in Categories(log) && c.name == OlderTurns
    ensures Pick(Old(log), true) != [] ==> exists c :: c in Categories(log) && c.name == ToolOutput
  {
    var older := CategoryOf(OlderTurns, Pick(Old(log), false), Summarize);
    var tools := CategoryOf(ToolOutput, Pick(Old(log), true), Drop);
    assert older != [] ==> older[0] in Categories(log);
    assert tools != [] ==> tools[0] in Categories(log);
  }

  method MergeActions(categories: seq<Category>, actions: map<CategoryName, ActionName>)
    returns (merged: map<CategoryName, ActionName>)
    requires forall c :: c in categories ==> c.suggested == ActionFor(map[], c.name)
    ensures forall c :: c in categories ==> c.name in merged && merged[c.name] == ActionFor(actions, c.name)
  {
    merged := map[];
    for i := 0 to |categories|
      invariant forall c :: c in categories[..i] ==> c.name in merged && merged[c.name] == ActionFor(map[], c.name)
    {
      assert categories[..i + 1] == categories[..i] + [categories[i]];
      assert categories[i] in categories;
      merged := merged[categories[i].name := categories[i].suggested];
    }
    assert categories[..|categories|] == categories;
    merged := merged + actions;
  }

  /** The actions for the two buckets, where they are not empty. */
  method ChooseActions(turns: seq<Turn>, actions: map<CategoryName, ActionName>, window: int)
    returns (olderAction: ActionName, toolAction: ActionName)
    requires |turns| > KEEP_FLOOR
    ensures Pick(Old(turns), false) != [] ==> olderAction == ActionFor(actions, OlderTurns)
    ensures Pick(Old(turns), true) != [] ==> toolAction == ActionFor(actions, ToolOutput)
  {
    var plan := BuildCompactPlan(turns, window);
    PlanNames(turns);
    var merged := MergeActions(plan.categories, actions);
    olderAction := if OlderTurns in merged then merged[OlderTurns] else Keep;
    toolAction := if ToolOutput in merged then merged[ToolOutput] else Keep;
  }

  /** Older-turn summarization; None when the summary cannot be stored. */
  method ApplyToOlder(store: Store, older: seq<Turn>, action: ActionName, sum: Summarizer)
    returns (freed: Option<nat>, lines: seq<Line>)
    requires sum.elsewhere == store.elsewhere
    modifies store`log
    ensures Outcome(store.log, freed, lines) == OlderPass(old(store.log), older, action, sum)
  {
    freed, lines := Some(0), [];
    if |older| == 0 {
      return;
    }
    match action {
      case Summarize =>
        var ok := ReplaceTurnsWithSummary(store, older, SummaryOf(older, sum));
        if !ok {
          return None, [];
        }
        var before := SumTurnTokens(older);
        freed, lines := Some(NineTenths(before)), [SummarizedOlder(|older|)];
      case Drop =>
        DeleteTurns(store, older);
        var dropped := SumTurnTokens(older);
        freed, lines := Some(dropped), [DroppedOlder(|older|)];
      case _ =>
    }
  }

  /** The tool-output pass is always drop or keep. */
  method ApplyToTools(store: Store, tools: seq<Turn>, action: ActionName) returns (freed: nat, lines: seq<Line>)
    modifies store`log
    ensures Outcome(store.log, Some(freed), lines) == ToolPass(old(store.log), tools, action)
  {
    freed, lines := 0, [];
    if action == Drop && |tools| > 0 {
      DeleteTurns(store, tools);
      freed := SumTurnTokens(tools);
      lines := [DroppedTools(|tools|)];
    }
  }

  /** Both passes, the second unless the first failed. */
  method ApplyBoth(store: Store, older: seq<Turn>, tools: seq<Turn>, olderAction: ActionName, toolAction: ActionName,
                   sum: Summarizer)
    returns (freed: Option<nat>, lines: seq<Line>)
    requires sum.elsewhere == store.elsewhere
    modifies store`log
    ensures Outcome(store.log, freed, lines) ==
            ToolsNext(OlderPass(old(store.log), older, olderAction, sum), tools, toolAction)
  {
    freed, lines := ApplyToOlder(store, older, olderAction, sum);
    if freed.Some? {
      var more, moreLines := ApplyToTools(store, tools, toolAction);
      freed, lines := Some(freed.value + more), lines + moreLines;
    }
  }

  /** An empty bucket's action does not matter. */
  lemma EmptyBuckets(log: seq<Turn>, older: seq<Turn>, tools: seq<Turn>, a: ActionName, b: ActionName, c: ActionName,
                     d: ActionName, sum: Summarizer)
    requires (older != [] ==> a == b) && (tools != [] ==> c == d)
    ensures ToolsNext(OlderPass(log, older, a, sum), tools, c) == ToolsNext(OlderPass(log, older, b, sum), tools, d)
  {
    assert older == [] ==> OlderPass(log, older, a, sum) == OlderPass(log, older, b, sum);
  }

  /** Applies the older-turns action, then the tool-output action. None when the summary cannot be stored. */
  method ApplyCompactPlan(store: Store, actions: map<CategoryName, ActionName>, window: int, sum: Summarizer)
    returns (response: Option<Response>)
    requires sum.elsewhere == store.elsewhere
    modifies store`log
    ensures var after := Compacted(old(store.log), actions, sum);
            store.log == after.log
            && response ==
               if after.freed.None? then None
               else if |old(store.log)| <= KEEP_FLOOR then Some(Response(false, 0, NOTHING, []))
               else Some(Response(after.freed.value > 0, after.freed.value, Share(Tokens(after.log), window),
                                  after.lines))
  {
    var turns := store.log;
    if |turns| <= KEEP_FLOOR {
      return Some(Response(false, 0, NOTHING, []));
    }
    var older, tools, recent := Bucket(turns);
    var olderAction, toolAction := ChooseActions(turns, actions, window);
    var freed, lines := ApplyBoth(store, older, tools, olderAction, toolAction, sum);
    EmptyBuckets(turns, older, tools, olderAction, ActionFor(actions, OlderTurns), toolAction,
                 ActionFor(actions, ToolOutput), sum);
    assert Outcome(store.log, freed, lines) == Compacted(turns, actions, sum);
    if freed.None? {
      return None;
    }
    var remaining := SumTurnTokens(store.log);
    response := Some(Response(freed.value > 0, freed.value, Share(remaining, window), lines));
  }
}
