/**
 Context window truncation with tool-pair reconciliation (internal/provider/truncate.go).

 `Truncate` is the source's algorithm: a backward walk, two id sets, two filters in place and the
 removal of empty messages. `Truncated` says what it returns: the longest affordable suffix,
 reconciled. The theorems are about `Truncated`.
 */
module Truncation {
  import opened Wrappers
  import opened Messages

  datatype TruncateError = EmptyMessages | WindowTooSmall | TruncationEmpty

  // ---------------------------------------------------------------- ids

  ghost function CallIdsIn(calls: seq<ToolCall>): set<string> {
    set c | c in calls :: c.id
  }

  ghost function ResultIdsIn(results: seq<ToolResult>): set<string> {
    set r | r in results :: r.toolCallId
  }

  /** Ids of the calls on assistant messages: the only ones the source collects. */
  ghost function AssistantCallIds(msgs: seq<Message>): set<string> {
    set m, c | m in msgs && m.role == "assistant" && c in m.toolCalls :: c.id
  }

  ghost function CallIds(msgs: seq<Message>): set<string> {
    set m, c | m in msgs && c in m.toolCalls :: c.id
  }

  ghost function ResultIds(msgs: seq<Message>): set<string> {
    set m, r | m in msgs && r in m.toolResults :: r.toolCallId
  }

  // ---------------------------------------------------------------- reconciliation

  ghost function KeepCalls(calls: seq<ToolCall>, ids: set<string>): seq<ToolCall> {
    if calls == [] then []
    else
      var front, last := KeepCalls(calls[..|calls| - 1], ids), calls[|calls| - 1];
      if last.id in ids then front + [last] else front
  }

  ghost function KeepResults(results: seq<ToolResult>, ids: set<string>): seq<ToolResult> {
    if results == [] then []
    else
      var front, last := KeepResults(results[..|results| - 1], ids), results[|results| - 1];
      if last.toolCallId in ids then front + [last] else front
  }

  /** A message without its orphans: results without a use, calls without a result. */
  ghost function Trimmed(m: Message, uses: set<string>, results: set<string>): Message {
    m.(toolResults := KeepResults(m.toolResults, uses), toolCalls := KeepCalls(m.toolCalls, results))
  }

  ghost function TrimmedAll(msgs: seq<Message>, uses: set<string>, results: set<string>): seq<Message> {
    seq(|msgs|, i requires 0 <= i < |msgs| => Trimmed(msgs[i], uses, results))
  }

  predicate NonEmpty(m: Message) {
    m.content != "" || |m.toolCalls| > 0 || |m.toolResults| > 0 || |m.attachments| > 0
  }

  ghost function DropEmpty(msgs: seq<Message>): seq<Message> {
    if msgs == [] then []
    else
      var front, last := DropEmpty(msgs[..|msgs| - 1]), msgs[|msgs| - 1];
      if NonEmpty(last) then front + [last] else front
  }

  ghost function Reconciled(msgs: seq<Message>): seq<Message> {
    DropEmpty(TrimmedAll(msgs, AssistantCallIds(msgs), ResultIds(msgs)))
  }

  predicate FromUser(m: Message) {
    m.role == "user" || m.role == "tool"
  }

  // ---------------------------------------------------------------- the specification

  /** Where the longest affordable suffix starts. */
  ghost function Cutoff(enc: Encoding, msgs: seq<Message>, budget: nat): (c: nat)
    ensures c <= |msgs|
  {
    if Cost(enc, msgs) <= budget then 0 else 1 + Cutoff(enc, msgs[1..], budget)
  }

  ghost function Kept(enc: Encoding, msgs: seq<Message>, systemPrompt: string, windowSize: int): seq<Message>
    requires EstimateTokens(systemPrompt) < windowSize
  {
    msgs[Cutoff(enc, msgs, windowSize - EstimateTokens(systemPrompt))..]
  }

  ghost function Truncated(enc: Encoding, msgs: seq<Message>, systemPrompt: string, windowSize: int)
    : Result<seq<Message>, TruncateError>
  {
    if msgs == [] then Failure(EmptyMessages)
    else if windowSize <= 0 then Success(msgs)
    else if EstimateTokens(systemPrompt) >= windowSize then Failure(WindowTooSmall)
    else
      var out := Reconciled(Kept(enc, msgs, systemPrompt, windowSize));
      if exists m :: m in out && FromUser(m) then Success(out) else Failure(TruncationEmpty)
  }

  // ---------------------------------------------------------------- the algorithm

  method FilterResults(results: seq<ToolResult>, ids: set<string>) returns (filtered: seq<ToolResult>)
    ensures filtered == KeepResults(results, ids)
  {
    filtered := [];
    for i := 0 to |results|
      invariant filtered == KeepResults(results[..i], ids)
    {
      assert results[..i + 1][..i] == results[..i];
      if results[i].toolCallId in ids {
        filtered := filtered + [results[i]];
      }
    }
    assert results[..|results|] == results;
  }

  method FilterCalls(calls: seq<ToolCall>, ids: set<string>) returns (filtered: seq<ToolCall>)
    ensures filtered == KeepCalls(calls, ids)
  {
    filtered := [];
    for i := 0 to |calls|
      invariant filtered == KeepCalls(calls[..i], ids)
    {
      assert calls[..i + 1][..i] == calls[..i];
      if calls[i].id in ids {
        filtered := filtered + [calls[i]];
      }
    }
    assert calls[..|calls|] == calls;
  }

  method CollectUses(kept: array<Message>) returns (ids: set<string>)
    ensures ids == AssistantCallIds(kept[..])
  {
    ids := {};
    for i := 0 to kept.Length
      invariant ids == AssistantCallIds(kept[..i])
    {
      assert kept[..i + 1] == kept[..i] + [kept[i]];
      if kept[i].role == "assistant" {
        var calls := kept[i].toolCalls;
        ghost var before := ids;
        for j := 0 to |calls|
          invariant ids == before + CallIdsIn(calls[..j])
        {
          assert calls[..j + 1] == calls[..j] + [calls[j]];
          ids := ids + {calls[j].id};
        }
        assert calls[..|calls|] == calls;
      }
    }
    assert kept[..kept.Length] == kept[..];
  }

  method CollectResults(kept: array<Message>) returns (ids: set<string>)
    ensures ids == ResultIds(kept[..])
  {
    ids := {};
    for i := 0 to kept.Length
      invariant ids == ResultIds(kept[..i])
    {
      assert kept[..i + 1] == kept[..i] + [kept[i]];
      var results := kept[i].toolResults;
      ghost var before := ids;
      for j := 0 to |results|
        invariant ids == before + ResultIdsIn(results[..j])
      {
        assert results[..j + 1] == results[..j] + [results[j]];
        ids := ids + {results[j].toolCallId};
      }
      assert results[..|results|] == results;
    }
    assert kept[..kept.Length] == kept[..];
  }

  method FindCutoff(enc: Encoding, msgs: seq<Message>, remaining: nat) returns (cutoff: nat)
    ensures cutoff == Cutoff(enc, msgs, remaining)
  {
    var cumulative := 0;
    cutoff := |msgs|;
    var i := |msgs| - 1;
    while i >= 0
      invariant -1 <= i < |msgs| && cutoff == i + 1
      invariant cumulative == Cost(enc, msgs[cutoff..]) <= remaining
    {
      var tokens := EstimateMessageTokens(enc, msgs[i]);
      assert msgs[i..][1..] == msgs[cutoff..];
      if cumulative + tokens > remaining {
        break;
      }
      cumulative := cumulative + tokens;
      cutoff := i;
      i := i - 1;
    }
    CutoffIsLeast(enc, msgs, remaining, cutoff);
  }

  /** The two filtering passes over the copied slice, in the source's order. */
  method ReconcileInPlace(kept: array<Message>, uses: set<string>, answered: set<string>)
    modifies kept
    ensures kept[..] == TrimmedAll(old(kept[..]), uses, answered)
  {
    for i := 0 to kept.Length
      invariant forall k :: 0 <= k < i ==>
                              kept[k] == old(kept[k]).(toolResults := KeepResults(old(kept[k]).toolResults, uses))
      invariant forall k :: i <= k < kept.Length ==> kept[k] == old(kept[k])
    {
      var filtered := FilterResults(kept[i].toolResults, uses);
      kept[i] := kept[i].(toolResults := filtered);
    }
    for i := 0 to kept.Length
      invariant forall k :: 0 <= k < i ==> kept[k] == Trimmed(old(kept[k]), uses, answered)
      invariant forall k :: i <= k < kept.Length ==>
                              kept[k] == old(kept[k]).(toolResults := KeepResults(old(kept[k]).toolResults, uses))
    {
      var filtered := FilterCalls(kept[i].toolCalls, answered);
      kept[i] := kept[i].(toolCalls := filtered);
    }
  }

  method RemoveEmpty(kept: array<Message>) returns (result: seq<Message>)
    ensures result == DropEmpty(kept[..])
  {
    result := [];
    for i := 0 to kept.Length
      invariant result == DropEmpty(kept[..i])
    {
      assert kept[..i + 1][..i] == kept[..i];
      if NonEmpty(kept[i]) {
        result := result + [kept[i]];
      }
    }
    assert kept[..kept.Length] == kept[..];
  }

  method HasUser(msgs: seq<Message>) returns (found: bool)
    ensures found == exists m :: m in msgs && FromUser(m)
  {
    found := false;
    for i := 0 to |msgs|
      invariant forall k :: 0 <= k < i ==> !FromUser(msgs[k])
    {
      if FromUser(msgs[i]) {
        return true;
      }
    }
  }

  /** The source's algorithm. `kept` is its copied slice, mutated in place. */
  method Truncate(enc: Encoding, msgs: seq<Message>, systemPrompt: string, windowSize: int)
    returns (r: Result<seq<Message>, TruncateError>)
    ensures r == Truncated(enc, msgs, systemPrompt, windowSize)
  {
    if |msgs| == 0 {
      return Failure(EmptyMessages);
    }
    if windowSize <= 0 {
      return Success(msgs);
    }
    var systemBudget := EstimateTokens(systemPrompt);
    if systemBudget >= windowSize {
      return Failure(WindowTooSmall);
    }

    var cutoff := FindCutoff(enc, msgs, windowSize - systemBudget);
    if cutoff >= |msgs| {
      return Failure(TruncationEmpty);
    }
    var kept := new Message[|msgs| - cutoff](i requires 0 <= i < |msgs| - cutoff => msgs[cutoff + i]);
    assert kept[..] == msgs[cutoff..];

    var uses := CollectUses(kept);
    var answered := CollectResults(kept);
    ReconcileInPlace(kept, uses, answered);
    var result := RemoveEmpty(kept);
    if |result| == 0 {
      return Failure(TruncationEmpty);
    }
    var hasUser := HasUser(result);
    if !hasUser {
      return Failure(TruncationEmpty);
    }
    return Success(result);
  }

  // ---------------------------------------------------------------- the suffix

  lemma {:induction false} CostOfSuffix(enc: Encoding, msgs: seq<Message>, c: nat)
    requires c <= |msgs|
    ensures Cost(enc, msgs[c..]) <= Cost(enc, msgs)
  {
    if c > 0 {
      assert msgs[c..] == msgs[1..][c - 1..];
      CostOfSuffix(enc, msgs[1..], c - 1);
    }
  }

  lemma {:induction false} CutoffIsLeast(enc: Encoding, msgs: seq<Message>, budget: nat, c: nat)
    requires c <= |msgs| && Cost(enc, msgs[c..]) <= budget
    requires c > 0 ==> Cost(enc, msgs[c - 1..]) > budget
    ensures c == Cutoff(enc, msgs, budget)
  {
    if c > 0 {
      CostOfSuffix(enc, msgs, c - 1);
      assert msgs[1..][c - 1..] == msgs[c..];
      if c > 1 {
        assert msgs[1..][c - 2..] == msgs[c - 1..];
      }
      CutoffIsLeast(enc, msgs[1..], budget, c - 1);
    } else {
      assert msgs[0..] == msgs;
    }
  }

  /** The kept suffix is affordable and no longer one is: a suffix fits exactly from `Cutoff` on. */
  lemma {:induction false} LongestSuffix(enc: Encoding, msgs: seq<Message>, budget: nat, c: nat)
    requires c <= |msgs|
    ensures Cost(enc, msgs[c..]) <= budget <==> c >= Cutoff(enc, msgs, budget)
  {
    if Cost(enc, msgs) <= budget {
      CostOfSuffix(enc, msgs, c);
    } else if c > 0 {
      assert msgs[c..] == msgs[1..][c - 1..];
      LongestSuffix(enc, msgs[1..], budget, c - 1);
    } else {
      assert msgs[0..] == msgs;
    }
  }
}
