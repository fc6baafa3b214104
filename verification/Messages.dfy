/**
 The canonical conversation message and its token estimate
 (internal/provider/message.go). A `char` stands for one byte of the source's strings.
 */
module Messages {
  import opened Wrappers

  datatype ToolCall = ToolCall(id: string, name: string, input: string)

  datatype ToolResult = ToolResult(toolCallId: string, output: string, status: string, error: string, reason: string)

  datatype Attachment = Attachment(path: string, raw: string, content: string, contentType: string, transform: string)

  datatype Message = Message(
    role: string,
    content: string,
    toolCalls: seq<ToolCall>,
    toolResults: seq<ToolResult>,
    attachments: seq<Attachment>,
    metadata: map<string, string>)

  /**
   How long the JSON encoding of one value is, beyond its two braces. A call whose input is not
   valid JSON has no encoding. Everything proved below holds for every such encoding.
   */
  datatype Encoding = Encoding(call: ToolCall -> Option<nat>, result: ToolResult -> nat)

  /** The chars/4 heuristic, on a length. */
  function TokensOfLength(n: nat): nat {
    n / 4
  }

  function EstimateTokens(s: string): nat {
    TokensOfLength(|s|)
  }

  predicate Encodable(enc: Encoding, calls: seq<ToolCall>) {
    forall c | c in calls :: enc.call(c).Some?
  }

  /** The JSON length of a non-empty list: brackets, elements and the commas between them. */
  function CallsLength(enc: Encoding, calls: seq<ToolCall>): nat
    requires Encodable(enc, calls)
  {
    if calls == [] then 1 else CallsLength(enc, calls[..|calls| - 1]) + enc.call(calls[|calls| - 1]).value + 3
  }

  function ResultsLength(enc: Encoding, results: seq<ToolResult>): nat {
    if results == [] then 1 else ResultsLength(enc, results[..|results| - 1]) + enc.result(results[|results| - 1]) + 3
  }

  /** A list that fails to marshal costs nothing: the source adds only when err is nil. */
  function CallsTokens(enc: Encoding, calls: seq<ToolCall>): nat {
    if calls == [] || !Encodable(enc, calls) then 0 else TokensOfLength(CallsLength(enc, calls))
  }

  function ResultsTokens(enc: Encoding, results: seq<ToolResult>): nat {
    if results == [] then 0 else TokensOfLength(ResultsLength(enc, results))
  }

  function AttachmentsTokens(atts: seq<Attachment>): nat {
    if atts == [] then 0 else AttachmentsTokens(atts[..|atts| - 1]) + EstimateTokens(atts[|atts| - 1].content)
  }

  /** What a message costs; the base64 bytes of an attachment are not counted. */
  function MessageTokens(enc: Encoding, m: Message): nat {
    EstimateTokens(m.content) + CallsTokens(enc, m.toolCalls) + ResultsTokens(enc, m.toolResults)
    + AttachmentsTokens(m.attachments)
  }

  method EstimateMessageTokens(enc: Encoding, m: Message) returns (total: nat)
    ensures total == MessageTokens(enc, m)
  {
    total := EstimateTokens(m.content);
    if |m.toolCalls| > 0 && Encodable(enc, m.toolCalls) {
      total := total + TokensOfLength(CallsLength(enc, m.toolCalls));
    }
    if |m.toolResults| > 0 {
      total := total + TokensOfLength(ResultsLength(enc, m.toolResults));
    }
    ghost var base := total;
    for i := 0 to |m.attachments|
      invariant total == base + AttachmentsTokens(m.attachments[..i])
    {
      assert m.attachments[..i + 1][..i] == m.attachments[..i];
      total := total + EstimateTokens(m.attachments[i].content);
    }
    assert m.attachments[..|m.attachments|] == m.attachments;
  }

  /** What a conversation costs. */
  function Cost(enc: Encoding, msgs: seq<Message>): nat {
    if msgs == [] then 0 else MessageTokens(enc, msgs[0]) + Cost(enc, msgs[1..])
  }

  predicate AllEncodable(enc: Encoding, msgs: seq<Message>) {
    forall m | m in msgs :: Encodable(enc, m.toolCalls)
  }
}
