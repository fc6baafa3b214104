/**
 What truncation promises: pairing, order, the budget, and that a second run changes nothing.
 */
module TruncationLaws {
  import opened Wrappers
  import opened Messages
  import opened Truncation

  // ---------------------------------------------------------------- filters

  lemma {:induction false} KeepCallsExact(calls: seq<ToolCall>, ids: set<string>)
    ensures forall c :: c in KeepCalls(calls, ids) <==> c in calls && c.id in ids
    ensures |KeepCalls(calls, ids)| <= |calls|
    ensures KeepCalls(calls, ids) == calls <==> CallIdsIn(calls) <= ids
  {
    if calls != [] {
      var init, last := calls[..|calls| - 1], calls[|calls| - 1];
      KeepCallsExact(init, ids);
      assert calls == init + [last];
      if CallIdsIn(calls) <= ids {
        assert forall c :: c in init ==> c.id in CallIdsIn(calls);
        assert last.id in CallIdsIn(calls);
      }
    }
  }

  lemma {:induction false} KeepResultsExact(results: seq<ToolResult>, ids: set<string>)
    ensures forall r :: r in KeepResults(results, ids) <==> r in results && r.toolCallId in ids
    ensures |KeepResults(results, ids)| <= |results|
    ensures KeepResults(results, ids) == results <==> ResultIdsIn(results) <= ids
  {
    if results != [] {
      var init, last := results[..|results| - 1], results[|results| - 1];
      KeepResultsExact(init, ids);
      assert results == init + [last];
      if ResultIdsIn(results) <= ids {
        assert forall r :: r in init ==> r.toolCallId in ResultIdsIn(results);
        assert last.toolCallId in ResultIdsIn(results);
      }
    }
  }

  lemma {:induction false} DropEmptyExact(msgs: seq<Message>)
    ensures forall m :: m in DropEmpty(msgs) <==> m in msgs && NonEmpty(m)
    ensures (forall m :: m in msgs ==> NonEmpty(m)) ==> DropEmpty(msgs) == msgs
  {
    if msgs != [] {
      var init, last := msgs[..|msgs| - 1], msgs[|msgs| - 1];
      DropEmptyExact(init);
      assert msgs == init + [last];
    }
  }

  // ---------------------------------------------------------------- order

  /** The positions whose messages survive the removal of empty messages. */
  ghost function Survivors(msgs: seq<Message>): seq<nat> {
    if msgs == [] then []
    else Survivors(msgs[..|msgs| - 1]) + if NonEmpty(msgs[|msgs| - 1]) then [|msgs| - 1] else []
  }

  ghost predicate Increasing(s: seq<nat>) {
    forall i, j :: 0 <= i < j < |s| ==> s[i] < s[j]
  }

  lemma {:induction false} DropEmptySelects(msgs: seq<Message>)
    ensures |Survivors(msgs)| == |DropEmpty(msgs)| && Increasing(Survivors(msgs))
    ensures forall k :: 0 <= k < |Survivors(msgs)| ==>
                          Survivors(msgs)[k] < |msgs| && DropEmpty(msgs)[k] == msgs[Survivors(msgs)[k]]
    ensures forall i :: 0 <= i < |msgs| ==> (i in Survivors(msgs) <==> NonEmpty(msgs[i]))
  {
    if msgs != [] {
      DropEmptySelects(msgs[..|msgs| - 1]);
    }
  }

  /** The positions, in order, of the messages that reconciling keeps, which it only trims. */
  ghost predicate Selects(msgs: seq<Message>, idx: seq<nat>) {
    && |idx| == |Reconciled(msgs)| && Increasing(idx)
    && (forall k :: 0 <= k < |idx| ==>
                      idx[k] < |msgs|
                      && Reconciled(msgs)[k] == Trimmed(msgs[idx[k]], AssistantCallIds(msgs), ResultIds(msgs)))
    && (forall i :: 0 <= i < |msgs| ==>
                      (i in idx <==> NonEmpty(Trimmed(msgs[i], AssistantCallIds(msgs), ResultIds(msgs)))))
  }

  /** Reconciling picks, in order, exactly the messages that are not empty once trimmed. */
  lemma ReconciledIsSelection(msgs: seq<Message>) returns (idx: seq<nat>)
    ensures Selects(msgs, idx)
  {
    var trimmed := TrimmedAll(msgs, AssistantCallIds(msgs), ResultIds(msgs));
    DropEmptySelects(trimmed);
    idx := Survivors(trimmed);
  }

  /** No call of the same or a later message carries a result's id. */
  ghost predicate ResultsFollowCalls(msgs: seq<Message>) {
    forall i, j :: 0 <= i <= j < |msgs| ==> ResultIdsIn(msgs[i].toolResults) !! CallIdsIn(msgs[j].toolCalls)
  }

  lemma TrimmedIdsShrink(m: Message, uses: set<string>, results: set<string>)
    ensures CallIdsIn(Trimmed(m, uses, results).toolCalls) <= CallIdsIn(m.toolCalls)
    ensures ResultIdsIn(Trimmed(m, uses, results).toolResults) <= ResultIdsIn(m.toolResults)
  {
    KeepCallsExact(m.toolCalls, results);
    KeepResultsExact(m.toolResults, uses);
  }

  lemma ReconciledKeepsOrder(msgs: seq<Message>)
    requires ResultsFollowCalls(msgs)
    ensures ResultsFollowCalls(Reconciled(msgs))
  {
    var idx := ReconciledIsSelection(msgs);
    var out := Reconciled(msgs);
    forall i, j | 0 <= i <= j < |out|
      ensures ResultIdsIn(out[i].toolResults) !! CallIdsIn(out[j].toolCalls)
    {
      TrimmedIdsShrink(msgs[idx[i]], AssistantCallIds(msgs), ResultIds(msgs));
      TrimmedIdsShrink(msgs[idx[j]], AssistantCallIds(msgs), ResultIds(msgs));
      assert idx[i] <= idx[j];
    }
  }

  // ---------------------------------------------------------------- pairing

  lemma TrimmedIn(msgs: seq<Message>, uses: set<string>, results: set<string>, m: Message)
    requires m in msgs
    ensures Trimmed(m, uses, results) in TrimmedAll(msgs, uses, results)
  {
    var i :| 0 <= i < |msgs| && msgs[i] == m;
    assert TrimmedAll(msgs, uses, results)[i] == Trimmed(m, uses, results);
  }

  lemma SurvivorOf(msgs: seq<Message>, m: Message) returns (source: Message)
    requires m in Reconciled(msgs)
    ensures source in msgs && m == Trimmed(source, AssistantCallIds(msgs), ResultIds(msgs))
  {
    var trimmed := TrimmedAll(msgs, AssistantCallIds(msgs), ResultIds(msgs));
    DropEmptyExact(trimmed);
    var i :| 0 <= i < |trimmed| && trimmed[i] == m;
    source := msgs[i];
  }

  /** Which ids survive, by what carries them. */
  lemma ReconciledIds(msgs: seq<Message>)
    ensures ResultIds(Reconciled(msgs)) == ResultIds(msgs) * AssistantCallIds(msgs)
    ensures AssistantCallIds(Reconciled(msgs)) == ResultIds(msgs) * AssistantCallIds(msgs)
    ensures CallIds(Reconciled(msgs)) == ResultIds(msgs) * CallIds(msgs)
  {
    var uses, answered, out := AssistantCallIds(msgs), ResultIds(msgs), Reconciled(msgs);
    DropEmptyExact(TrimmedAll(msgs, uses, answered));
    forall m, r | m in out && r in m.toolResults
      ensures r.toolCallId in uses * answered
    {
      var source := SurvivorOf(msgs, m);
      KeepResultsExact(source.toolResults, uses);
    }
    forall m, c | m in out && c in m.toolCalls
      ensures c.id in answered * CallIds(msgs) && (m.role == "assistant" ==> c.id in uses)
    {
      var source := SurvivorOf(msgs, m);
      KeepCallsExact(source.toolCalls, answered);
    }
    forall m, r | m in msgs && r in m.toolResults && r.toolCallId in uses
      ensures r.toolCallId in ResultIds(out)
    {
      TrimmedIn(msgs, uses, answered, m);
      KeepResultsExact(m.toolResults, uses);
      assert r in Trimmed(m, uses, answered).toolResults;
    }
    forall m, c | m in msgs && c in m.toolCalls && c.id in answered
      ensures c.id in CallIds(out) && (m.role == "assistant" ==> c.id in AssistantCallIds(out))
    {
      TrimmedIn(msgs, uses, answered, m);
      KeepCallsExact(m.toolCalls, answered);
      assert c in Trimmed(m, uses, answered).toolCalls;
    }
  }

  /** An answered call on a message that is not an assistant's has a namesake on one that is. */
  ghost predicate CallsOwned(msgs: seq<Message>) {
    ResultIds(msgs) * CallIds(msgs) <= AssistantCallIds(msgs)
  }

  lemma AssistantOnlyCallsAreOwned(msgs: seq<Message>)
    requires forall m :: m in msgs && m.role != "assistant" ==> m.toolCalls == []
    ensures CallsOwned(msgs)
  {
    forall m, c | m in msgs && c in m.toolCalls
      ensures c.id in AssistantCallIds(msgs)
    {
      assert m.role == "assistant";
    }
  }

  /**
   Pairing. Results and assistant calls always match; all calls match exactly when the kept suffix
   owns its answered calls.
   */
  lemma Pairing(enc: Encoding, msgs: seq<Message>, systemPrompt: string, windowSize: int, out: seq<Message>)
    requires windowSize > 0 && Truncated(enc, msgs, systemPrompt, windowSize) == Success(out)
    ensures ResultIds(out) == AssistantCallIds(out)
    ensures CallIds(out) == ResultIds(out) <==> CallsOwned(Kept(enc, msgs, systemPrompt, windowSize))
  {
    ReconciledIds(Kept(enc, msgs, systemPrompt, windowSize));
  }

  lemma SuffixFollows(msgs: seq<Message>, c: nat)
    requires c <= |msgs| && ResultsFollowCalls(msgs)
    ensures ResultsFollowCalls(msgs[c..])
  {
    forall i, j | 0 <= i <= j < |msgs[c..]|
      ensures ResultIdsIn(msgs[c..][i].toolResults) !! CallIdsIn(msgs[c..][j].toolCalls)
    {
      assert msgs[c..][i] == msgs[c + i] && msgs[c..][j] == msgs[c + j];
    }
  }

  lemma KeptIsSuffix(enc: Encoding, msgs: seq<Message>, systemPrompt: string, windowSize: int)
    requires EstimateTokens(systemPrompt) < windowSize && ResultsFollowCalls(msgs)
    ensures ResultsFollowCalls(Kept(enc, msgs, systemPrompt, windowSize))
  {
    SuffixFollows(msgs, Cutoff(enc, msgs, windowSize - EstimateTokens(systemPrompt)));
  }

  /** Each surviving result still has its call, in an earlier message. */
  lemma ResultsStillFollow(enc: Encoding, msgs: seq<Message>, systemPrompt: string, windowSize: int,
                           out: seq<Message>, i: nat, r: ToolResult) returns (j: nat, c: ToolCall)
    requires windowSize > 0 && Truncated(enc, msgs, systemPrompt, windowSize) == Success(out)
    requires ResultsFollowCalls(msgs)
    requires i < |out| && r in out[i].toolResults
    ensures j < i && out[j].role == "assistant" && c in out[j].toolCalls && c.id == r.toolCallId
  {
    Pairing(enc, msgs, systemPrompt, windowSize, out);
    KeptIsSuffix(enc, msgs, systemPrompt, windowSize);
    ReconciledKeepsOrder(Kept(enc, msgs, systemPrompt, windowSize));
    assert r.toolCallId in ResultIds(out);
    assert r.toolCallId in ResultIdsIn(out[i].toolResults);
    var m, call :| m in out && m.role == "assistant" && call in m.toolCalls && call.id == r.toolCallId;
    j :| 0 <= j < |out| && out[j] == m;
    c := call;
    assert c.id in CallIdsIn(out[j].toolCalls);
  }

  predicate AsksFor(m: Message, id: string) {
    m.role == "assistant" && exists c :: c in m.toolCalls && c.id == id
  }

  /** Every result that an assistant call of the conversation asks for has such a call in an earlier message. */
  ghost predicate Preceded(msgs: seq<Message>) {
    forall i, r :: 0 <= i < |msgs| && r in msgs[i].toolResults && r.toolCallId in AssistantCallIds(msgs) ==>
                     PrecededAt(msgs, i, r.toolCallId)
  }

  ghost predicate PrecededAt(msgs: seq<Message>, i: nat, id: string) {
    exists j :: 0 <= j < i && j < |msgs| && AsksFor(msgs[j], id)
  }

  lemma CallSurvives(msgs: seq<Message>, idx: seq<nat>, j: nat, id: string) returns (l: nat)
    requires Selects(msgs, idx) && j < |msgs| && AsksFor(msgs[j], id) && id in ResultIds(msgs)
    ensures l < |idx| && idx[l] == j && AsksFor(Reconciled(msgs)[l], id)
  {
    var c :| c in msgs[j].toolCalls && c.id == id;
    KeepCallsExact(msgs[j].toolCalls, ResultIds(msgs));
    assert c in Trimmed(msgs[j], AssistantCallIds(msgs), ResultIds(msgs)).toolCalls;
    l :| 0 <= l < |idx| && idx[l] == j;
  }

  lemma CallWasThere(msgs: seq<Message>, idx: seq<nat>, l: nat, id: string)
    requires Selects(msgs, idx) && l < |idx| && AsksFor(Reconciled(msgs)[l], id)
    ensures AsksFor(msgs[idx[l]], id)
  {
    KeepCallsExact(msgs[idx[l]].toolCalls, ResultIds(msgs));
  }

  lemma ReconciledStaysPreceded(msgs: seq<Message>)
    requires Preceded(msgs)
    ensures Preceded(Reconciled(msgs))
  {
    var idx := ReconciledIsSelection(msgs);
    var out := Reconciled(msgs);
    forall k, r | 0 <= k < |out| && r in out[k].toolResults ensures PrecededAt(out, k, r.toolCallId) {
      StaysPrecededAt(msgs, idx, k, r);
    }
  }

  lemma ResultWasThere(msgs: seq<Message>, idx: seq<nat>, k: nat, r: ToolResult)
    requires Selects(msgs, idx) && k < |idx| && r in Reconciled(msgs)[k].toolResults
    ensures r in msgs[idx[k]].toolResults && r.toolCallId in AssistantCallIds(msgs)
  {
    KeepResultsExact(msgs[idx[k]].toolResults, AssistantCallIds(msgs));
  }

  lemma EarlierCallSurvives(msgs: seq<Message>, idx: seq<nat>, k: nat, id: string)
    requires Selects(msgs, idx) && k < |idx| && id in ResultIds(msgs) && PrecededAt(msgs, idx[k], id)
    ensures PrecededAt(Reconciled(msgs), k, id)
  {
    var j :| 0 <= j < idx[k] && j < |msgs| && AsksFor(msgs[j], id);
    var l := CallSurvives(msgs, idx, j, id);
    assert l < k;
  }

  lemma StaysPrecededAt(msgs: seq<Message>, idx: seq<nat>, k: nat, r: ToolResult)
    requires Preceded(msgs) && Selects(msgs, idx) && k < |idx| && r in Reconciled(msgs)[k].toolResults
    ensures PrecededAt(Reconciled(msgs), k, r.toolCallId)
  {
    ResultWasThere(msgs, idx, k, r);
    assert PrecededAt(msgs, idx[k], r.toolCallId);
    EarlierCallSurvives(msgs, idx, k, r.toolCallId);
  }

  lemma WasPreceded(msgs: seq<Message>)
    requires Preceded(Reconciled(msgs))
    ensures Preceded(msgs)
  {
    var idx := ReconciledIsSelection(msgs);
    var out := Reconciled(msgs);
    ReconciledIds(msgs);
    forall i, r | 0 <= i < |msgs| && r in msgs[i].toolResults && r.toolCallId in AssistantCallIds(msgs)
      ensures PrecededAt(msgs, i, r.toolCallId)
    {
      KeepResultsExact(msgs[i].toolResults, AssistantCallIds(msgs));
      assert r in Trimmed(msgs[i], AssistantCallIds(msgs), ResultIds(msgs)).toolResults;
      var k :| 0 <= k < |idx| && idx[k] == i;
      assert r in out[k].toolResults;
      var l :| 0 <= l < k && AsksFor(out[l], r.toolCallId);
      CallWasThere(msgs, idx, l, r.toolCallId);
      assert idx[l] < i;
    }
  }

  /** The result has every answer after a call that asks for it, exactly when the kept suffix has. */
  lemma OrderKeptExactly(enc: Encoding, msgs: seq<Message>, systemPrompt: string, windowSize: int, out: seq<Message>)
    requires windowSize > 0 && Truncated(enc, msgs, systemPrompt, windowSize) == Success(out)
    ensures Preceded(out) <==> Preceded(Kept(enc, msgs, systemPrompt, windowSize))
  {
    var kept := Kept(enc, msgs, systemPrompt, windowSize);
    if Preceded(kept) {
      ReconciledStaysPreceded(kept);
    }
    if Preceded(out) {
      WasPreceded(kept);
    }
  }

  // ---------------------------------------------------------------- budget

  lemma {:induction false} KeepCallsShortens(enc: Encoding, calls: seq<ToolCall>, ids: set<string>)
    requires Encodable(enc, calls)
    ensures Encodable(enc, KeepCalls(calls, ids))
    ensures CallsLength(enc, KeepCalls(calls, ids)) <= CallsLength(enc, calls)
  {
    KeepCallsExact(calls, ids);
    if calls != [] {
      var init, last := calls[..|calls| - 1], calls[|calls| - 1];
      KeepCallsShortens(enc, init, ids);
      var kept := KeepCalls(init, ids);
      assert (kept + [last])[..|kept|] == kept;
      assert kept + [] == kept;
    }
  }

  lemma {:induction false} KeepResultsShortens(enc: Encoding, results: seq<ToolResult>, ids: set<string>)
    ensures ResultsLength(enc, KeepResults(results, ids)) <= ResultsLength(enc, results)
  {
    if results != [] {
      var init, last := results[..|results| - 1], results[|results| - 1];
      KeepResultsShortens(enc, init, ids);
      var kept := KeepResults(init, ids);
      assert (kept + [last])[..|kept|] == kept;
      assert kept + [] == kept;
    }
  }

  lemma {:induction false} CallsLengthPositive(enc: Encoding, calls: seq<ToolCall>)
    requires Encodable(enc, calls)
    ensures CallsLength(enc, calls) >= 1 + 3 * |calls|
  {
    if calls != [] {
      CallsLengthPositive(enc, calls[..|calls| - 1]);
    }
  }

  /** The full list fails to marshal, and so costs nothing, while what is left of it marshals. */
  ghost predicate Revives(enc: Encoding, calls: seq<ToolCall>, ids: set<string>) {
    !Encodable(enc, calls) && KeepCalls(calls, ids) != [] && Encodable(enc, KeepCalls(calls, ids))
  }

  /** No message's calls start to cost by being filtered. */
  ghost predicate NoneRevive(enc: Encoding, msgs: seq<Message>, ids: set<string>) {
    forall m :: m in msgs ==> !Revives(enc, m.toolCalls, ids)
  }

  /** Dropping calls raises their estimate exactly when a list that failed to marshal starts to marshal. */
  lemma DroppingCallsRaisesEstimate(enc: Encoding, calls: seq<ToolCall>, ids: set<string>)
    ensures CallsTokens(enc, KeepCalls(calls, ids)) > CallsTokens(enc, calls) <==> Revives(enc, calls, ids)
  {
    if Encodable(enc, calls) {
      KeepCallsShortens(enc, calls, ids);
      if calls == [] {
        assert KeepCalls(calls, ids) == [];
      }
    } else if Encodable(enc, KeepCalls(calls, ids)) && KeepCalls(calls, ids) != [] {
      assert CallsLength(enc, KeepCalls(calls, ids)) >= 4 by { CallsLengthPositive(enc, KeepCalls(calls, ids)); }
    }
  }

  /** What filtering a message takes off its estimate: dropped results, and dropped calls that were counted. */
  ghost function Dropped(enc: Encoding, m: Message, uses: set<string>, results: set<string>): int {
    ResultsTokens(enc, m.toolResults) - ResultsTokens(enc, KeepResults(m.toolResults, uses))
    + if Revives(enc, m.toolCalls, results) then 0
      else CallsTokens(enc, m.toolCalls) - CallsTokens(enc, KeepCalls(m.toolCalls, results))
  }

  /** What it adds: calls that were not counted and now are. */
  ghost function Revived(enc: Encoding, m: Message, results: set<string>): nat {
    if Revives(enc, m.toolCalls, results) then CallsTokens(enc, KeepCalls(m.toolCalls, results)) else 0
  }

  ghost function AllDropped(enc: Encoding, msgs: seq<Message>, uses: set<string>, results: set<string>): int {
    if msgs == [] then 0 else Dropped(enc, msgs[0], uses, results) + AllDropped(enc, msgs[1..], uses, results)
  }

  ghost function AllRevived(enc: Encoding, msgs: seq<Message>, results: set<string>): nat {
    if msgs == [] then 0 else Revived(enc, msgs[0], results) + AllRevived(enc, msgs[1..], results)
  }

  lemma DroppedIsNoGain(enc: Encoding, m: Message, uses: set<string>, results: set<string>)
    ensures Dropped(enc, m, uses, results) >= 0
    ensures MessageTokens(enc, Trimmed(m, uses, results)) + Dropped(enc, m, uses, results) ==
            MessageTokens(enc, m) + Revived(enc, m, results)
  {
    DroppingCallsRaisesEstimate(enc, m.toolCalls, results);
    KeepResultsShortens(enc, m.toolResults, uses);
    KeepResultsExact(m.toolResults, uses);
  }

  lemma {:induction false} TrimmingAccounts(enc: Encoding, msgs: seq<Message>, uses: set<string>, results: set<string>)
    ensures AllDropped(enc, msgs, uses, results) >= 0
    ensures Cost(enc, TrimmedAll(msgs, uses, results)) + AllDropped(enc, msgs, uses, results) ==
            Cost(enc, msgs) + AllRevived(enc, msgs, results)
  {
    if msgs != [] {
      DroppedIsNoGain(enc, msgs[0], uses, results);
      assert TrimmedAll(msgs, uses, results)[1..] == TrimmedAll(msgs[1..], uses, results);
      TrimmingAccounts(enc, msgs[1..], uses, results);
    }
  }

  lemma {:induction false} CostOfSnoc(enc: Encoding, msgs: seq<Message>, m: Message)
    ensures Cost(enc, msgs + [m]) == Cost(enc, msgs) + MessageTokens(enc, m)
  {
    if msgs == [] {
      assert msgs + [m] == [m] && [m][1..] == [];
    } else {
      assert (msgs + [m])[1..] == msgs[1..] + [m];
      CostOfSnoc(enc, msgs[1..], m);
    }
  }

  lemma EmptyIsFree(enc: Encoding, m: Message)
    requires !NonEmpty(m)
    ensures MessageTokens(enc, m) == 0
  {
    assert m.content == "" && m.toolCalls == [] && m.toolResults == [] && m.attachments == [];
  }

  lemma {:induction false} DroppingEmptyIsFree(enc: Encoding, msgs: seq<Message>)
    ensures Cost(enc, DropEmpty(msgs)) == Cost(enc, msgs)
  {
    if msgs != [] {
      var init, last := msgs[..|msgs| - 1], msgs[|msgs| - 1];
      DroppingEmptyIsFree(enc, init);
      assert msgs == init + [last];
      CostOfSnoc(enc, init, last);
      if NonEmpty(last) {
        CostOfSnoc(enc, DropEmpty(init), last);
      } else {
        EmptyIsFree(enc, last);
      }
    }
  }

  /** What reconciling a conversation takes off and adds to its cost. */
  ghost function Loss(enc: Encoding, msgs: seq<Message>): int {
    AllDropped(enc, msgs, AssistantCallIds(msgs), ResultIds(msgs))
  }

  ghost function Gain(enc: Encoding, msgs: seq<Message>): nat {
    AllRevived(enc, msgs, ResultIds(msgs))
  }

  lemma ReconcilingAccounts(enc: Encoding, msgs: seq<Message>)
    ensures Loss(enc, msgs) >= 0
    ensures Cost(enc, Reconciled(msgs)) + Loss(enc, msgs) == Cost(enc, msgs) + Gain(enc, msgs)
  {
    TrimmingAccounts(enc, msgs, AssistantCallIds(msgs), ResultIds(msgs));
    DroppingEmptyIsFree(enc, TrimmedAll(msgs, AssistantCallIds(msgs), ResultIds(msgs)));
  }

  /** Calls that start to be counted outweigh what is dropped and what the kept suffix left of the budget. */
  ghost predicate Overflows(enc: Encoding, kept: seq<Message>, budget: int) {
    Gain(enc, kept) > Loss(enc, kept) + (budget - Cost(enc, kept))
  }

  lemma KeptFits(enc: Encoding, msgs: seq<Message>, systemPrompt: string, windowSize: int)
    requires EstimateTokens(systemPrompt) < windowSize
    ensures EstimateTokens(systemPrompt) + Cost(enc, Kept(enc, msgs, systemPrompt, windowSize)) <= windowSize
  {
    var budget := windowSize - EstimateTokens(systemPrompt);
    LongestSuffix(enc, msgs, budget, Cutoff(enc, msgs, budget));
  }

  /**
   The result, with the system prompt, costs at most the window, exactly unless calls that filtering
   makes encodable outweigh what it drops and the slack. The kept suffix itself always fits.
   */
  lemma WithinBudget(enc: Encoding, msgs: seq<Message>, systemPrompt: string, windowSize: int, out: seq<Message>)
    requires windowSize > 0 && Truncated(enc, msgs, systemPrompt, windowSize) == Success(out)
    ensures var kept := Kept(enc, msgs, systemPrompt, windowSize);
            EstimateTokens(systemPrompt) + Cost(enc, kept) <= windowSize
            && Loss(enc, kept) >= 0
            && Cost(enc, out) + Loss(enc, kept) == Cost(enc, kept) + Gain(enc, kept)
            && (EstimateTokens(systemPrompt) + Cost(enc, out) <= windowSize <==>
                !Overflows(enc, kept, windowSize - EstimateTokens(systemPrompt)))
  {
    KeptFits(enc, msgs, systemPrompt, windowSize);
    ReconcilingAccounts(enc, Kept(enc, msgs, systemPrompt, windowSize));
  }

  lemma {:induction false} NoGain(enc: Encoding, msgs: seq<Message>, ids: set<string>)
    ensures AllRevived(enc, msgs, ids) == 0 <==> NoneRevive(enc, msgs, ids)
  {
    if msgs != [] {
      NoGain(enc, msgs[1..], ids);
      DroppingCallsRaisesEstimate(enc, msgs[0].toolCalls, ids);
      assert msgs == [msgs[0]] + msgs[1..];
    }
  }

  lemma ValidInputsNeverRevive(enc: Encoding, msgs: seq<Message>, ids: set<string>)
    requires AllEncodable(enc, msgs)
    ensures NoneRevive(enc, msgs, ids)
  {
  }

  // ---------------------------------------------------------------- idempotence

  /** A list with no empty message is left alone exactly when its calls and results are paired. */
  lemma ReconciledFixpoint(msgs: seq<Message>)
    requires forall m :: m in msgs ==> NonEmpty(m)
    ensures Reconciled(msgs) == msgs <==>
            CallIds(msgs) <= ResultIds(msgs) && ResultIds(msgs) <= AssistantCallIds(msgs)
  {
    var uses, answered := AssistantCallIds(msgs), ResultIds(msgs);
    ReconciledIds(msgs);
    if CallIds(msgs) <= answered && answered <= uses {
      forall i | 0 <= i < |msgs|
        ensures Trimmed(msgs[i], uses, answered) == msgs[i]
      {
        assert forall c :: c in msgs[i].toolCalls ==> c.id in CallIds(msgs);
        assert forall r :: r in msgs[i].toolResults ==> r.toolCallId in answered;
        KeepCallsExact(msgs[i].toolCalls, answered);
        KeepResultsExact(msgs[i].toolResults, uses);
      }
      assert TrimmedAll(msgs, uses, answered) == msgs;
      DropEmptyExact(msgs);
    }
  }

  lemma ReconciledHasNoEmpty(msgs: seq<Message>)
    ensures forall m :: m in Reconciled(msgs) ==> NonEmpty(m)
  {
    DropEmptyExact(TrimmedAll(msgs, AssistantCallIds(msgs), ResultIds(msgs)));
  }

  lemma {:induction false} DropEmptyShrinks(msgs: seq<Message>)
    ensures |DropEmpty(msgs)| <= |msgs|
  {
    if msgs != [] {
      DropEmptyShrinks(msgs[..|msgs| - 1]);
    }
  }

  /** A list that no longer fits loses its head in a second run. */
  lemma OverfullShrinks(enc: Encoding, out: seq<Message>, systemPrompt: string, windowSize: int)
    requires EstimateTokens(systemPrompt) < windowSize && EstimateTokens(systemPrompt) + Cost(enc, out) > windowSize
    ensures |Reconciled(Kept(enc, out, systemPrompt, windowSize))| < |out|
  {
    var kept := Kept(enc, out, systemPrompt, windowSize);
    assert |kept| < |out|;
    DropEmptyShrinks(TrimmedAll(kept, AssistantCallIds(kept), ResultIds(kept)));
  }

  /**
   Running truncation on its own output changes nothing, exactly when the kept suffix owns its
   answered calls and no revived calls overflow the window.
   */
  lemma Idempotent(enc: Encoding, msgs: seq<Message>, systemPrompt: string, windowSize: int, out: seq<Message>)
    requires windowSize > 0 && Truncated(enc, msgs, systemPrompt, windowSize) == Success(out)
    ensures var kept := Kept(enc, msgs, systemPrompt, windowSize);
            Truncated(enc, out, systemPrompt, windowSize) == Success(out) <==>
            CallsOwned(kept) && !Overflows(enc, kept, windowSize - EstimateTokens(systemPrompt))
  {
    var kept := Kept(enc, msgs, systemPrompt, windowSize);
    WithinBudget(enc, msgs, systemPrompt, windowSize, out);
    if EstimateTokens(systemPrompt) + Cost(enc, out) <= windowSize {
      assert Kept(enc, out, systemPrompt, windowSize) == out;
      ReconciledHasNoEmpty(kept);
      ReconciledFixpoint(out);
      ReconciledIds(kept);
    } else {
      OverfullShrinks(enc, out, systemPrompt, windowSize);
    }
  }

  // ---------------------------------------------------------------- ordinary conversations

  /** Calls sit on assistant messages only, and every input is valid JSON. */
  ghost predicate Ordinary(enc: Encoding, msgs: seq<Message>) {
    AllEncodable(enc, msgs) && forall m :: m in msgs && m.role != "assistant" ==> m.toolCalls == []
  }

  /** An ordinary conversation comes out paired, within the window, and as a fixed point. */
  lemma OrdinaryConversation(enc: Encoding, msgs: seq<Message>, systemPrompt: string, windowSize: int,
                             out: seq<Message>)
    requires windowSize > 0 && Truncated(enc, msgs, systemPrompt, windowSize) == Success(out)
    requires Ordinary(enc, msgs)
    ensures CallIds(out) == ResultIds(out)
    ensures EstimateTokens(systemPrompt) + Cost(enc, out) <= windowSize
    ensures Truncated(enc, out, systemPrompt, windowSize) == Success(out)
  {
    var kept := Kept(enc, msgs, systemPrompt, windowSize);
    assert forall m :: m in kept ==> m in msgs;
    AssistantOnlyCallsAreOwned(kept);
    Pairing(enc, msgs, systemPrompt, windowSize, out);
    ValidInputsNeverRevive(enc, kept, ResultIds(kept));
    NoGain(enc, kept, ResultIds(kept));
    WithinBudget(enc, msgs, systemPrompt, windowSize, out);
    Idempotent(enc, msgs, systemPrompt, windowSize, out);
  }

  // ---------------------------------------------------------------- where the hypotheses matter

  function Plain(role: string, calls: seq<ToolCall>, results: seq<ToolResult>): Message {
    Message(role, "", calls, results, [], map[])
  }

  function Answer(id: string): ToolResult {
    ToolResult(id, "", "success", "", "")
  }

  /** Calls encode when they have an input. */
  const SAMPLE := Encoding((c: ToolCall) => if c.input == "" then None else Some(|c.input|), (r: ToolResult) => 0)

  const GOOD := ToolCall("a", "t", "{}")
  const BAD := ToolCall("b", "t", "")
  const ASKED := Plain("assistant", [GOOD, BAD], [])
  const ANSWERED := Plain("tool", [], [Answer("a")])

  lemma SampleCosts()
    ensures !Encodable(SAMPLE, ASKED.toolCalls)
    ensures MessageTokens(SAMPLE, ASKED) == 0 && MessageTokens(SAMPLE, ANSWERED) == 1
    ensures MessageTokens(SAMPLE, Plain("assistant", [GOOD], [])) == 1
  {
    assert BAD in ASKED.toolCalls;
    assert ResultsLength(SAMPLE, [Answer("a")]) == 4 by { assert [Answer("a")][..0] == []; }
    assert CallsLength(SAMPLE, [GOOD]) == 6 by { assert [GOOD][..0] == []; }
  }

  lemma SampleIds()
    ensures AssistantCallIds([ASKED, ANSWERED]) == {"a", "b"} && ResultIds([ASKED, ANSWERED]) == {"a"}
  {
    var msgs := [ASKED, ANSWERED];
    assert ASKED in msgs && ANSWERED in msgs && Answer("a") in ANSWERED.toolResults;
    assert GOOD in ASKED.toolCalls && BAD in ASKED.toolCalls;
  }

  lemma SampleTrimmed()
    ensures TrimmedAll([ASKED, ANSWERED], {"a", "b"}, {"a"}) == [Plain("assistant", [GOOD], []), ANSWERED]
  {
    assert KeepCalls([GOOD, BAD], {"a"}) == [GOOD] by {
      assert [GOOD, BAD][..1] == [GOOD] && [GOOD][..0] == [];
      assert KeepCalls([GOOD], {"a"}) == [GOOD];
    }
    assert KeepResults([Answer("a")], {"a", "b"}) == [Answer("a")] by { assert [Answer("a")][..0] == []; }
  }

  lemma SampleReconciled()
    ensures Reconciled([ASKED, ANSWERED]) == [Plain("assistant", [GOOD], []), ANSWERED]
  {
    SampleIds();
    SampleTrimmed();
    DropEmptyExact([Plain("assistant", [GOOD], []), ANSWERED]);
  }

  lemma CostOfTwo(enc: Encoding, a: Message, b: Message)
    ensures Cost(enc, [a, b]) == MessageTokens(enc, a) + MessageTokens(enc, b)
  {
    assert [a, b][1..] == [b] && [b][1..] == [];
    assert Cost(enc, [b]) == MessageTokens(enc, b);
  }

  /**
   A malformed call that reconciliation drops takes the result over the window; a second run then
   cuts it again, although all calls are owned.
   */
  lemma MalformedInputBreaksBudget()
    ensures var out := [Plain("assistant", [GOOD], []), ANSWERED];
            Truncated(SAMPLE, [ASKED, ANSWERED], "", 1) == Success(out) && Cost(SAMPLE, out) > 1
            && CallsOwned([ASKED, ANSWERED]) && Truncated(SAMPLE, out, "", 1) != Success(out)
  {
    SampleCosts();
    CostOfTwo(SAMPLE, ASKED, ANSWERED);
    assert Kept(SAMPLE, [ASKED, ANSWERED], "", 1) == [ASKED, ANSWERED];
    SampleReconciled();
    var out := [Plain("assistant", [GOOD], []), ANSWERED];
    CostOfTwo(SAMPLE, out[0], ANSWERED);
    assert out[1] == ANSWERED && FromUser(ANSWERED);
    AssistantOnlyCallsAreOwned([ASKED, ANSWERED]);
    OverfullShrinks(SAMPLE, out, "", 1);
  }

  lemma CallAndAnswer(call: Message)
    requires call.toolCalls == [GOOD] && call.toolResults == []
    ensures var uses := if call.role == "assistant" then {"a"} else {};
            forall msgs :: msgs == [call, ANSWERED] || msgs == [ANSWERED, call] ==>
                             AssistantCallIds(msgs) == uses && ResultIds(msgs) == {"a"} && CallIds(msgs) == {"a"}
  {
    assert GOOD in call.toolCalls && Answer("a") in ANSWERED.toolResults;
    forall msgs | msgs == [call, ANSWERED] || msgs == [ANSWERED, call]
      ensures AssistantCallIds(msgs) == if call.role == "assistant" then {"a"} else {}
      ensures ResultIds(msgs) == {"a"} && CallIds(msgs) == {"a"}
    {
      assert call in msgs && ANSWERED in msgs && forall m :: m in msgs ==> m == call || m == ANSWERED;
    }
  }

  lemma UserCallReconciled()
    ensures var first := Plain("user", [GOOD], []); Reconciled([first, ANSWERED]) == [first]
  {
    var first := Plain("user", [GOOD], []);
    CallAndAnswer(first);
    assert KeepCalls([GOOD], {"a"}) == [GOOD] by { assert [GOOD][..0] == []; }
    assert KeepResults([Answer("a")], {}) == [] by { assert [Answer("a")][..0] == []; }
    var empty := Plain("tool", [], []);
    assert TrimmedAll([first, ANSWERED], {}, {"a"}) == [first, empty];
    assert [first, empty][..1] == [first] && [first][..0] == [];
    assert DropEmpty([first]) == [first] && !NonEmpty(empty);
  }

  /** A call on a user message keeps its place while its result, which no assistant asked for, goes. */
  lemma UserCallBreaksPairing()
    ensures var first := Plain("user", [GOOD], []);
            Truncated(SAMPLE, [first, ANSWERED], "", 2) == Success([first])
            && CallIds([first]) == {"a"} && ResultIds([first]) == {}
  {
    var first := Plain("user", [GOOD], []);
    SampleCosts();
    assert MessageTokens(SAMPLE, first) == 1;
    CostOfTwo(SAMPLE, first, ANSWERED);
    assert Kept(SAMPLE, [first, ANSWERED], "", 2) == [first, ANSWERED];
    UserCallReconciled();
    CallAndAnswer(first);
    ReconciledIds([first, ANSWERED]);
    assert [first][0] == first && FromUser(first);
  }

  lemma ReusedIdTruncates()
    ensures var call := Plain("assistant", [GOOD], []);
            Truncated(SAMPLE, [call, ANSWERED, call], "", 2) == Success([ANSWERED, call])
  {
    var call := Plain("assistant", [GOOD], []);
    var all, rest := [call, ANSWERED, call], [ANSWERED, call];
    SampleCosts();
    CostOfTwo(SAMPLE, ANSWERED, call);
    assert all[1..] == rest;
    assert Cost(SAMPLE, all) == MessageTokens(SAMPLE, call) + Cost(SAMPLE, rest);
    assert Cutoff(SAMPLE, all, 2) == 1 + Cutoff(SAMPLE, rest, 2);
    assert Kept(SAMPLE, all, "", 2) == rest;
    CallAndAnswer(call);
    ReconciledFixpoint(rest);
    assert rest[0] == ANSWERED && FromUser(ANSWERED);
  }

  lemma OrderOfReused()
    ensures var call := Plain("assistant", [GOOD], []);
            Preceded([call, ANSWERED, call]) && !Preceded([ANSWERED, call])
  {
    var call := Plain("assistant", [GOOD], []);
    var all, rest := [call, ANSWERED, call], [ANSWERED, call];
    CallAndAnswer(call);
    assert GOOD in call.toolCalls && AsksFor(all[0], "a") && Answer("a") in rest[0].toolResults;
    forall i, r | 0 <= i < |all| && r in all[i].toolResults ensures PrecededAt(all, i, r.toolCallId) {
      assert i == 1 && r == Answer("a");
    }
    assert !PrecededAt(rest, 0, "a");
  }

  /** With a reused id, the cut can leave a result before its namesake's call: in order before, not after. */
  lemma ReusedIdBreaksOrder()
    ensures var call := Plain("assistant", [GOOD], []);
            Truncated(SAMPLE, [call, ANSWERED, call], "", 2) == Success([ANSWERED, call])
            && Preceded([call, ANSWERED, call]) && !Preceded([ANSWERED, call])
  {
    ReusedIdTruncates();
    OrderOfReused();
  }
}
