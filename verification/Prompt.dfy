/**
 Assembly of the layered system prompt and its trimming (internal/runtime/prompt.go), and why the
 prompt never makes truncation fail.
 */
module Prompt {
  import opened Wrappers
  import opened Messages
  import opened Truncation

  datatype Layer = Layer(number: int, name: string, content: string, tokens: nat, pinned: bool)

  /** The text of each layer, "" where the source adds none. */
  datatype Sources = Sources(core: string, tools: string, domain: string, project: string, mode: string,
                             knowledge: string, session: string)

  function MakeLayer(number: int, name: string, content: string): Layer {
    Layer(number, name, content, EstimateTokens(content), number <= 5)
  }

  function Optional(number: int, name: string, content: string): seq<Layer> {
    if content == "" then [] else [MakeLayer(number, name, content)]
  }

  function Layers(s: Sources): seq<Layer> {
    [MakeLayer(1, "core_behavioral", s.core)]
    + Optional(2, "tool_use", s.tools)
    + Optional(3, "domain_instructions", s.domain)
    + Optional(4, "project_context", s.project)
    + Optional(5, "mode", s.mode)
    + Optional(6, "knowledge", s.knowledge)
    + Optional(7, "session_state", s.session)
  }

  // ---------------------------------------------------------------- specification

  function SumTokens(layers: seq<Layer>): nat {
    if layers == [] then 0 else SumTokens(layers[..|layers| - 1]) + layers[|layers| - 1].tokens
  }

  function PinnedTokens(layers: seq<Layer>): nat {
    if layers == [] then 0
    else
      var last := layers[|layers| - 1];
      PinnedTokens(layers[..|layers| - 1]) + if last.pinned then last.tokens else 0
  }

  /** The contents that are not empty, with a blank line between any two. */
  function Joined(layers: seq<Layer>): string {
    if layers == [] then ""
    else
      var front, last := Joined(layers[..|layers| - 1]), layers[|layers| - 1].content;
      if last == "" then front else if front == "" then last else front + "\n\n" + last
  }

  function BlankedLayer(l: Layer, number: int): Layer {
    if l.number == number && !l.pinned then l.(content := "", tokens := 0) else l
  }

  ghost function Blanked(layers: seq<Layer>, number: int): seq<Layer> {
    seq(|layers|, i requires 0 <= i < |layers| => BlankedLayer(layers[i], number))
  }

  ghost function Fitted(layers: seq<Layer>, budget: nat): seq<Layer> {
    if SumTokens(layers) <= budget then layers
    else if SumTokens(Blanked(layers, 6)) <= budget then Blanked(layers, 6)
    else Blanked(Blanked(layers, 6), 7)
  }

  /** A window that is not positive puts no bound on the prompt; otherwise it gets a quarter. */
  ghost function Trimmed(s: Sources, windowSize: int): seq<Layer> {
    if windowSize > 0 then Fitted(Layers(s), windowSize / 4) else Layers(s)
  }

  // ---------------------------------------------------------------- the algorithm

  method SumLayerTokens(layers: array<Layer>) returns (total: nat)
    ensures total == SumTokens(layers[..])
  {
    total := 0;
    for i := 0 to layers.Length
      invariant total == SumTokens(layers[..i])
    {
      assert layers[..i + 1][..i] == layers[..i];
      total := total + layers[i].tokens;
    }
    assert layers[..layers.Length] == layers[..];
  }

  method JoinLayers(layers: array<Layer>) returns (text: string)
    ensures text == Joined(layers[..])
  {
    text := "";
    for i := 0 to layers.Length
      invariant text == Joined(layers[..i])
    {
      assert layers[..i + 1][..i] == layers[..i];
      if layers[i].content != "" {
        if |text| > 0 && i > 0 {
          text := text + "\n\n";
        }
        text := text + layers[i].content;
      }
    }
    assert layers[..layers.Length] == layers[..];
  }

  method BlankInPlace(layers: array<Layer>, number: int)
    modifies layers
    ensures layers[..] == Blanked(old(layers[..]), number)
  {
    for i := 0 to layers.Length
      invariant forall k :: 0 <= k < i ==> layers[k] == BlankedLayer(old(layers[k]), number)
      invariant forall k :: i <= k < layers.Length ==> layers[k] == old(layers[k])
    {
      if layers[i].number == number && !layers[i].pinned {
        layers[i] := layers[i].(content := "", tokens := 0);
      }
    }
  }

  method TrimLayers(layers: array<Layer>, budget: nat)
    modifies layers
    ensures layers[..] == Fitted(old(layers[..]), budget)
  {
    var total := SumLayerTokens(layers);
    if total <= budget {
      return;
    }
    BlankInPlace(layers, 6);
    total := SumLayerTokens(layers);
    if total <= budget {
      return;
    }
    BlankInPlace(layers, 7);
  }

  method Assemble(s: Sources, windowSize: int) returns (prompt: string, tokens: nat)
    ensures prompt == Joined(Trimmed(s, windowSize)) && tokens == SumTokens(Trimmed(s, windowSize))
  {
    var all := Layers(s);
    var layers := new Layer[|all|](i requires 0 <= i < |all| => all[i]);
    assert layers[..] == all;
    if windowSize > 0 {
      TrimLayers(layers, windowSize / 4);
    }
    prompt := JoinLayers(layers);
    tokens := SumLayerTokens(layers);
  }

  // ---------------------------------------------------------------- accounting

  ghost predicate Accounted(layers: seq<Layer>) {
    forall l :: l in layers ==> l.tokens == EstimateTokens(l.content)
  }

  function NonEmptyLayers(layers: seq<Layer>): nat {
    if layers == [] then 0
    else NonEmptyLayers(layers[..|layers| - 1]) + if layers[|layers| - 1].content == "" then 0 else 1
  }

  /** Each layer that is not empty rounds off at most three characters and costs two to join. */
  lemma {:induction false} JoinedLength(layers: seq<Layer>)
    requires Accounted(layers)
    ensures Joined(layers) == "" <==> NonEmptyLayers(layers) == 0
    ensures NonEmptyLayers(layers) <= |layers|
    ensures SumTokens(layers) <= EstimateTokens(Joined(layers))
    ensures NonEmptyLayers(layers) > 0 ==> |Joined(layers)| + 2 <= 4 * SumTokens(layers) + 5 * NonEmptyLayers(layers)
    ensures NonEmptyLayers(layers) == 0 ==> SumTokens(layers) == 0
  {
    if layers != [] {
      var init, last := layers[..|layers| - 1], layers[|layers| - 1];
      JoinedLength(init);
      assert last.tokens == |last.content| / 4;
    }
  }

  lemma BlankedIsAccounted(layers: seq<Layer>, number: int)
    requires Accounted(layers)
    ensures Accounted(Blanked(layers, number)) && |Blanked(layers, number)| == |layers|
  {
    forall l | l in Blanked(layers, number)
      ensures l.tokens == EstimateTokens(l.content)
    {
      var i :| 0 <= i < |layers| && l == BlankedLayer(layers[i], number);
      assert layers[i] in layers;
    }
  }

  lemma FittedIsAccounted(layers: seq<Layer>, budget: nat)
    requires Accounted(layers)
    ensures Accounted(Fitted(layers, budget)) && |Fitted(layers, budget)| == |layers|
  {
    BlankedIsAccounted(layers, 6);
    BlankedIsAccounted(Blanked(layers, 6), 7);
  }

  lemma LayersAreAccounted(s: Sources)
    ensures Accounted(Layers(s)) && |Layers(s)| <= 7 && (s.knowledge == "" ==> |Layers(s)| <= 6)
  {
  }

  /** The prompt's own estimate is the reported total, or above it by at most 7: 8 with a sixth layer. */
  lemma PromptAccounting(s: Sources, windowSize: int)
    ensures var layers := Trimmed(s, windowSize);
            SumTokens(layers) <= EstimateTokens(Joined(layers))
            <= SumTokens(layers) + if s.knowledge == "" then 7 else 8
  {
    LayersAreAccounted(s);
    if windowSize > 0 {
      FittedIsAccounted(Layers(s), windowSize / 4);
    }
    JoinedLength(Trimmed(s, windowSize));
  }

  // ---------------------------------------------------------------- trimming

  /** Blanking both optional layers leaves the pinned total. */
  lemma {:induction false} BlankedSum(layers: seq<Layer>)
    requires forall l :: l in layers && !l.pinned ==> l.number == 6 || l.number == 7
    ensures SumTokens(Blanked(Blanked(layers, 6), 7)) == PinnedTokens(layers)
  {
    if layers != [] {
      var init := layers[..|layers| - 1];
      BlankedSum(init);
      var both := Blanked(Blanked(layers, 6), 7);
      assert layers[|layers| - 1] in layers;
      assert both[..|layers| - 1] == Blanked(Blanked(init, 6), 7);
    }
  }

  /** The trimmed total fits its budget exactly when the whole prompt or the pinned layers do. */
  lemma TrimmingFits(s: Sources, windowSize: int)
    requires windowSize > 0
    ensures SumTokens(Trimmed(s, windowSize)) <= windowSize / 4 <==> PinnedTokens(Layers(s)) <= windowSize / 4
  {
    BlankedSum(Layers(s));
    PinnedIsLess(Layers(s));
    PinnedSurvives(Layers(s), 6);
    PinnedIsLess(Blanked(Layers(s), 6));
  }

  lemma {:induction false} PinnedIsLess(layers: seq<Layer>)
    ensures PinnedTokens(layers) <= SumTokens(layers)
  {
    if layers != [] {
      PinnedIsLess(layers[..|layers| - 1]);
    }
  }

  lemma {:induction false} PinnedSurvives(layers: seq<Layer>, number: int)
    ensures PinnedTokens(Blanked(layers, number)) == PinnedTokens(layers)
  {
    if layers != [] {
      var init := layers[..|layers| - 1];
      PinnedSurvives(init, number);
      assert Blanked(layers, number)[..|layers| - 1] == Blanked(init, number);
    }
  }

  /**
   A prompt assembled for a window of at least 10 tokens (11 with a sixth layer), whose pinned
   layers fit their quarter, always leaves truncation some room.
   */
  lemma TruncationHasRoom(enc: Encoding, msgs: seq<Message>, s: Sources, windowSize: int)
    requires windowSize >= if s.knowledge == "" then 10 else 11
    requires PinnedTokens(Layers(s)) <= windowSize / 4
    ensures Truncated(enc, msgs, Joined(Trimmed(s, windowSize)), windowSize) != Failure(WindowTooSmall)
  {
    PromptAccounting(s, windowSize);
    TrimmingFits(s, windowSize);
  }
}
