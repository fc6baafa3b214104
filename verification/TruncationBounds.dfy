/**
 Truncation in characters: what an estimate leaves out of account, how much text a truncated
 conversation can have, and when there is one at all.
 */
module TruncationBounds {
  import opened Wrappers
  import opened Messages
  import opened Truncation
  import opened TruncationLaws

  // ---------------------------------------------------------------- an estimate in characters

  function Total(lengths: seq<nat>): nat {
    if lengths == [] then 0 else Total(lengths[..|lengths| - 1]) + lengths[|lengths| - 1]
  }

  /** The length of a JSON list of objects: brackets, commas, and each object with its braces. */
  function ListChars(bodies: seq<nat>): nat {
    if bodies == [] then 0 else 2 + (|bodies| - 1) + Total(bodies) + 2 * |bodies|
  }

  function CallBodies(enc: Encoding, calls: seq<ToolCall>): seq<nat>
    requires Encodable(enc, calls)
  {
    seq(|calls|, i requires 0 <= i < |calls| => enc.call(calls[i]).value)
  }

  function ResultBodies(enc: Encoding, results: seq<ToolResult>): seq<nat> {
    if results == [] then [] else ResultBodies(enc, results[..|results| - 1]) + [enc.result(results[|results| - 1])]
  }

  function AttachmentLengths(atts: seq<Attachment>): seq<nat> {
    seq(|atts|, i requires 0 <= i < |atts| => |atts[i].content|)
  }

  /** Everything of a message that goes to the model, in characters. */
  function Characters(enc: Encoding, m: Message): nat
    requires Encodable(enc, m.toolCalls)
  {
    |m.content| + ListChars(CallBodies(enc, m.toolCalls)) + ListChars(ResultBodies(enc, m.toolResults))
    + Total(AttachmentLengths(m.attachments))
  }

  lemma TotalOfSnoc(lengths: seq<nat>, n: nat)
    ensures Total(lengths + [n]) == Total(lengths) + n
  {
    assert (lengths + [n])[..|lengths|] == lengths;
  }

  lemma {:induction false} CallsAreList(enc: Encoding, calls: seq<ToolCall>)
    requires Encodable(enc, calls)
    ensures CallsLength(enc, calls) == 1 + Total(CallBodies(enc, calls)) + 3 * |calls|
  {
    if calls != [] {
      var init, last := calls[..|calls| - 1], calls[|calls| - 1];
      CallsAreList(enc, init);
      TotalOfSnoc(CallBodies(enc, init), enc.call(last).value);
      assert CallBodies(enc, calls) == CallBodies(enc, init) + [enc.call(last).value];
    }
  }

  lemma {:induction false} ResultsAreList(enc: Encoding, results: seq<ToolResult>)
    ensures |ResultBodies(enc, results)| == |results|
    ensures ResultsLength(enc, results) == 1 + Total(ResultBodies(enc, results)) + 3 * |results|
  {
    if results != [] {
      var init, last := results[..|results| - 1], results[|results| - 1];
      ResultsAreList(enc, init);
      TotalOfSnoc(ResultBodies(enc, init), enc.result(last));
    }
  }

  lemma {:induction false} AttachmentsRoundOff(atts: seq<Attachment>)
    ensures 4 * AttachmentsTokens(atts) <= Total(AttachmentLengths(atts)) <= 4 * AttachmentsTokens(atts) + 3 * |atts|
  {
    if atts != [] {
      var init, last := atts[..|atts| - 1], atts[|atts| - 1];
      AttachmentsRoundOff(init);
      TotalOfSnoc(AttachmentLengths(init), |last.content|);
      assert AttachmentLengths(atts) == AttachmentLengths(init) + [|last.content|];
    }
  }

  /** A message's estimate is a quarter of its characters, short of it by rounding each part at most. */
  lemma EstimateIsQuarter(enc: Encoding, m: Message)
    requires Encodable(enc, m.toolCalls)
    ensures 4 * MessageTokens(enc, m) <= Characters(enc, m) <= 4 * MessageTokens(enc, m) + 9 + 3 * |m.attachments|
  {
    CallsAreList(enc, m.toolCalls);
    ResultsAreList(enc, m.toolResults);
    AttachmentsRoundOff(m.attachments);
  }

  /** A message with text alone costs a quarter of it. */
  lemma TextAlone(enc: Encoding, m: Message)
    requires m.toolCalls == [] && m.toolResults == [] && m.attachments == []
    ensures MessageTokens(enc, m) == |m.content| / 4
  {
    assert AttachmentsTokens([]) == 0;
  }

  /** An attachment adds a quarter of its content, whatever its raw bytes, path, type and transform. */
  lemma AttachmentAdds(enc: Encoding, m: Message, a: Attachment)
    ensures MessageTokens(enc, m.(attachments := m.attachments + [a])) == MessageTokens(enc, m) + |a.content| / 4
  {
    assert (m.attachments + [a])[..|m.attachments|] == m.attachments;
  }

  lemma {:induction false} ContentsCount(a: seq<Attachment>, b: seq<Attachment>)
    requires AttachmentLengths(a) == AttachmentLengths(b)
    ensures AttachmentsTokens(a) == AttachmentsTokens(b)
  {
    assert |AttachmentLengths(a)| == |a| && |AttachmentLengths(b)| == |b|;
    if a != [] {
      var n := |a| - 1;
      assert AttachmentLengths(a)[n] == AttachmentLengths(b)[n];
      assert AttachmentLengths(a[..n]) == AttachmentLengths(a)[..n] == AttachmentLengths(b)[..n];
      assert AttachmentLengths(b[..n]) == AttachmentLengths(b)[..n];
      ContentsCount(a[..n], b[..n]);
    }
  }

  /** Raw bytes never matter, nor do role and metadata: only what the model sees. */
  lemma RawNeverMatters(enc: Encoding, m: Message, n: Message)
    requires m.content == n.content && m.toolCalls == n.toolCalls && m.toolResults == n.toolResults
    requires AttachmentLengths(m.attachments) == AttachmentLengths(n.attachments)
    ensures MessageTokens(enc, m) == MessageTokens(enc, n)
  {
    ContentsCount(m.attachments, n.attachments);
  }

  // ---------------------------------------------------------------- a conversation in characters

  function ContentChars(msgs: seq<Message>): nat {
    if msgs == [] then 0 else |msgs[0].content| + ContentChars(msgs[1..])
  }

  function AllCharacters(enc: Encoding, msgs: seq<Message>): nat
    requires AllEncodable(enc, msgs)
  {
    if msgs == [] then 0 else Characters(enc, msgs[0]) + AllCharacters(enc, msgs[1..])
  }

  function AttachmentCount(msgs: seq<Message>): nat {
    if msgs == [] then 0 else |msgs[0].attachments| + AttachmentCount(msgs[1..])
  }

  lemma {:induction false} ContentIsCharged(enc: Encoding, msgs: seq<Message>)
    ensures ContentChars(msgs) <= 4 * Cost(enc, msgs) + 3 * |msgs|
  {
    if msgs != [] {
      ContentIsCharged(enc, msgs[1..]);
    }
  }

  lemma {:induction false} AllIsCharged(enc: Encoding, msgs: seq<Message>)
    requires AllEncodable(enc, msgs)
    ensures 4 * Cost(enc, msgs) <= AllCharacters(enc, msgs)
    ensures AllCharacters(enc, msgs) <= 4 * Cost(enc, msgs) + 9 * |msgs| + 3 * AttachmentCount(msgs)
  {
    if msgs != [] {
      AllIsCharged(enc, msgs[1..]);
      EstimateIsQuarter(enc, msgs[0]);
    }
  }

  lemma EncodableFits(enc: Encoding, msgs: seq<Message>, systemPrompt: string, windowSize: int, out: seq<Message>)
    requires windowSize > 0 && Truncated(enc, msgs, systemPrompt, windowSize) == Success(out)
    requires AllEncodable(enc, msgs)
    ensures Cost(enc, out) <= windowSize - |systemPrompt| / 4
  {
    var kept := Kept(enc, msgs, systemPrompt, windowSize);
    assert forall m :: m in kept ==> m in msgs;
    ValidInputsNeverRevive(enc, kept, ResultIds(kept));
    NoGain(enc, kept, ResultIds(kept));
    WithinBudget(enc, msgs, systemPrompt, windowSize, out);
  }

  /** The text of a truncated conversation fits the window left by the prompt, four characters a token. */
  lemma ContentFits(enc: Encoding, msgs: seq<Message>, systemPrompt: string, windowSize: int, out: seq<Message>)
    requires windowSize > 0 && Truncated(enc, msgs, systemPrompt, windowSize) == Success(out)
    requires AllEncodable(enc, msgs)
    ensures ContentChars(out) <= 4 * (windowSize - |systemPrompt| / 4) + 3 * |out|
  {
    EncodableFits(enc, msgs, systemPrompt, windowSize, out);
    ContentIsCharged(enc, out);
  }

  lemma SurvivorsEncode(enc: Encoding, msgs: seq<Message>)
    requires AllEncodable(enc, msgs)
    ensures AllEncodable(enc, Reconciled(msgs))
  {
    forall m | m in Reconciled(msgs) ensures Encodable(enc, m.toolCalls) {
      var source := SurvivorOf(msgs, m);
      KeepCallsExact(source.toolCalls, ResultIds(msgs));
    }
  }

  /** And so does everything in it: calls, results and attachments included. */
  lemma EverythingFits(enc: Encoding, msgs: seq<Message>, systemPrompt: string, windowSize: int, out: seq<Message>)
    requires windowSize > 0 && Truncated(enc, msgs, systemPrompt, windowSize) == Success(out)
    requires AllEncodable(enc, msgs)
    ensures AllEncodable(enc, out)
    ensures AllCharacters(enc, out) <=
            4 * (windowSize - |systemPrompt| / 4) + 9 * |out| + 3 * AttachmentCount(out)
  {
    EncodableFits(enc, msgs, systemPrompt, windowSize, out);
    SurvivorsEncode(enc, Kept(enc, msgs, systemPrompt, windowSize));
    AllIsCharged(enc, out);
  }

  // ---------------------------------------------------------------- when there is an outcome

  /** Every refusal but one is decided by lengths alone, and no outcome is without a user or a tool. */
  lemma RefusedExactly(enc: Encoding, msgs: seq<Message>, systemPrompt: string, windowSize: int)
    ensures var r := Truncated(enc, msgs, systemPrompt, windowSize);
            (r == Failure(EmptyMessages) <==> msgs == [])
            && (r == Failure(WindowTooSmall) <==> msgs != [] && 0 < windowSize <= |systemPrompt| / 4)
            && (msgs != [] && windowSize <= 0 ==> r == Success(msgs))
            && (r.Success? && windowSize > 0 ==> exists m :: m in r.value && (m.role == "user" || m.role == "tool"))
  {
    if windowSize > |systemPrompt| / 4 && msgs != [] {
      var out := Reconciled(Kept(enc, msgs, systemPrompt, windowSize));
      if m :| m in out && FromUser(m) {
        assert m.role == "user" || m.role == "tool";
      }
    }
  }

  predicate PlainText(m: Message) {
    m.content != "" && m.toolCalls == [] && m.toolResults == [] && m.attachments == []
  }

  lemma PlainTextSurvives(msgs: seq<Message>)
    requires msgs != [] && PlainText(msgs[|msgs| - 1])
    ensures var out := Reconciled(msgs); out != [] && out[|out| - 1] == msgs[|msgs| - 1]
  {
    var trimmed, last := TrimmedAll(msgs, AssistantCallIds(msgs), ResultIds(msgs)), msgs[|msgs| - 1];
    assert trimmed[|trimmed| - 1] == last by {
      assert last.toolCalls == [] && last.toolResults == [];
    }
  }

  /**
   A conversation that ends with a user's text is cut to one that ends with it, exactly when that
   text and the system prompt fit the window together; otherwise nothing is left.
   */
  lemma LastTextDecides(enc: Encoding, msgs: seq<Message>, systemPrompt: string, windowSize: int)
    requires msgs != [] && PlainText(msgs[|msgs| - 1])
    requires msgs[|msgs| - 1].role == "user" || msgs[|msgs| - 1].role == "tool"
    requires |systemPrompt| / 4 < windowSize
    ensures var r, last := Truncated(enc, msgs, systemPrompt, windowSize), msgs[|msgs| - 1];
            (r.Success? <==> |systemPrompt| / 4 + |last.content| / 4 <= windowSize)
            && (r.Success? ==> r.value != [] && r.value[|r.value| - 1] == last)
            && (r.Failure? ==> r == Failure(TruncationEmpty))
  {
    var last, budget := msgs[|msgs| - 1], windowSize - |systemPrompt| / 4;
    TextAlone(enc, last);
    assert msgs[|msgs| - 1..] == [last] && [last][1..] == [];
    LongestSuffix(enc, msgs, budget, |msgs| - 1);
    var kept := Kept(enc, msgs, systemPrompt, windowSize);
    if kept != [] {
      assert kept[|kept| - 1] == last;
      PlainTextSurvives(kept);
      assert FromUser(last) && last in Reconciled(kept);
    }
  }
}
