/** What the assembled prompt says: its texts in order, and which of them a window leaves out. */
module PromptTexts {
  import opened Prompt

  function JoinTwo(front: string, text: string): string {
    if text == "" then front else if front == "" then text else front + "\n\n" + text
  }

  /** The texts that are not empty, in order, with a blank line between any two. */
  function JoinTexts(texts: seq<string>): string {
    if texts == [] then "" else JoinTwo(JoinTexts(texts[..|texts| - 1]), texts[|texts| - 1])
  }

  function Quarters(texts: seq<string>): nat {
    if texts == [] then 0 else Quarters(texts[..|texts| - 1]) + |texts[|texts| - 1]| / 4
  }

  /** The layers say these texts: an empty text may have a blank layer or none. */
  ghost predicate Say(layers: seq<Layer>, texts: seq<string>) {
    Joined(layers) == JoinTexts(texts) && SumTokens(layers) == Quarters(texts)
  }

  /** At most one layer, and what it adds. */
  ghost predicate Adds(more: seq<Layer>, text: string) {
    if more == [] then text == ""
    else |more| == 1 && more[0].content == text && more[0].tokens == |text| / 4
  }

  lemma SayMore(layers: seq<Layer>, texts: seq<string>, more: seq<Layer>, text: string)
    requires Say(layers, texts) && Adds(more, text)
    ensures Say(layers + more, texts + [text])
  {
    assert (texts + [text])[..|texts|] == texts;
    if more == [] {
      assert layers + more == layers;
    } else {
      assert layers + more == layers + [more[0]] && (layers + [more[0]])[..|layers|] == layers;
    }
  }

  /** The five layers that are never trimmed. */
  function Base(s: Sources): seq<Layer> {
    [MakeLayer(1, "core_behavioral", s.core)]
    + Optional(2, "tool_use", s.tools)
    + Optional(3, "domain_instructions", s.domain)
    + Optional(4, "project_context", s.project)
    + Optional(5, "mode", s.mode)
  }

  function BaseTexts(s: Sources): seq<string> {
    [s.core] + [s.tools] + [s.domain] + [s.project] + [s.mode]
  }

  lemma SayOptional(layers: seq<Layer>, texts: seq<string>, number: int, name: string, text: string)
    requires Say(layers, texts)
    ensures Say(layers + Optional(number, name, text), texts + [text])
  {
    SayMore(layers, texts, Optional(number, name, text), text);
  }

  lemma CoreSays(core: Layer)
    requires core.tokens == |core.content| / 4
    ensures Say([core], [core.content])
  {
    SayMore([], [], [core], core.content);
    assert [] + [core] == [core] && [] + [core.content] == [core.content];
  }

  lemma BaseSays(s: Sources)
    ensures Say(Base(s), BaseTexts(s))
  {
    var core, texts := [MakeLayer(1, "core_behavioral", s.core)], [s.core];
    CoreSays(core[0]);
    SayOptional(core, texts, 2, "tool_use", s.tools);
    core, texts := core + Optional(2, "tool_use", s.tools), texts + [s.tools];
    SayOptional(core, texts, 3, "domain_instructions", s.domain);
    core, texts := core + Optional(3, "domain_instructions", s.domain), texts + [s.domain];
    SayOptional(core, texts, 4, "project_context", s.project);
    core, texts := core + Optional(4, "project_context", s.project), texts + [s.project];
    SayOptional(core, texts, 5, "mode", s.mode);
  }

  lemma BlankedOfConcat(a: seq<Layer>, b: seq<Layer>, number: int)
    ensures Blanked(a + b, number) == Blanked(a, number) + Blanked(b, number)
  {
  }

  lemma BaseStays(s: Sources, number: int)
    requires number == 6 || number == 7
    ensures Blanked(Base(s), number) == Base(s)
  {
    forall l | l in Base(s) ensures BlankedLayer(l, number) == l {
    }
    assert forall i :: 0 <= i < |Base(s)| ==> Base(s)[i] in Base(s);
  }

  lemma Ends(s: Sources, more: seq<Layer>, knowledge: string, last: seq<Layer>, session: string)
    requires Adds(more, knowledge) && Adds(last, session)
    ensures Say(Base(s) + more + last, BaseTexts(s) + [knowledge] + [session])
  {
    BaseSays(s);
    SayMore(Base(s), BaseTexts(s), more, knowledge);
    SayMore(Base(s) + more, BaseTexts(s) + [knowledge], last, session);
  }

  lemma BlankedEnds(s: Sources)
    ensures var sixth, seventh := Optional(6, "knowledge", s.knowledge), Optional(7, "session_state", s.session);
            Layers(s) == Base(s) + sixth + seventh
            && Blanked(Layers(s), 6) == Base(s) + Blanked(sixth, 6) + seventh
            && Blanked(Blanked(Layers(s), 6), 7) == Base(s) + Blanked(sixth, 6) + Blanked(seventh, 7)
            && Adds(sixth, s.knowledge) && Adds(seventh, s.session)
            && Adds(Blanked(sixth, 6), "") && Adds(Blanked(seventh, 7), "")
  {
    var sixth, seventh := Optional(6, "knowledge", s.knowledge), Optional(7, "session_state", s.session);
    BaseStays(s, 6);
    BaseStays(s, 7);
    BlankedOfConcat(Base(s) + sixth, seventh, 6);
    BlankedOfConcat(Base(s), sixth, 6);
    assert Blanked(seventh, 6) == seventh;
    BlankedOfConcat(Base(s) + Blanked(sixth, 6), seventh, 7);
    BlankedOfConcat(Base(s), Blanked(sixth, 6), 7);
    assert Blanked(Blanked(sixth, 6), 7) == Blanked(sixth, 6);
  }

  /** What is said without trimming, without the knowledge, and without both. */
  lemma TrimmedSay(s: Sources)
    ensures Says(Layers(s), s, s.knowledge, s.session)
    ensures Says(Blanked(Layers(s), 6), s, "", s.session)
    ensures Says(Blanked(Blanked(Layers(s), 6), 7), s, "", "")
  {
    var sixth, seventh := Optional(6, "knowledge", s.knowledge), Optional(7, "session_state", s.session);
    BlankedEnds(s);
    Ends(s, sixth, s.knowledge, seventh, s.session);
    Ends(s, Blanked(sixth, 6), "", seventh, s.session);
    Ends(s, Blanked(sixth, 6), "", Blanked(seventh, 7), "");
    QuartersOfEnds(s, s.knowledge, s.session);
    QuartersOfEnds(s, "", s.session);
    QuartersOfEnds(s, "", "");
  }

  ghost predicate Says(layers: seq<Layer>, s: Sources, knowledge: string, session: string) {
    Joined(layers) == JoinTexts(BaseTexts(s) + [knowledge] + [session])
    && SumTokens(layers) == Quarters(BaseTexts(s)) + |knowledge| / 4 + |session| / 4
  }

  lemma QuartersOfEnds(s: Sources, knowledge: string, session: string)
    ensures Quarters(BaseTexts(s) + [knowledge] + [session]) ==
            Quarters(BaseTexts(s)) + |knowledge| / 4 + |session| / 4
  {
    assert (BaseTexts(s) + [knowledge] + [session])[..6] == BaseTexts(s) + [knowledge];
    assert (BaseTexts(s) + [knowledge])[..5] == BaseTexts(s);
  }

  /**
   The prompt is the texts in their order. When a positive window's quarter is smaller than all of
   them, the knowledge is left out first, and the session state too if they are still too much; the
   other five always stay. The total is a quarter of each text that is said.
   */
  lemma PromptSays(s: Sources, windowSize: int)
    ensures var base := Quarters([s.core] + [s.tools] + [s.domain] + [s.project] + [s.mode]);
            var tight := windowSize > 0 && base + |s.knowledge| / 4 + |s.session| / 4 > windowSize / 4;
            var knowledge := if tight then "" else s.knowledge;
            var session := if tight && base + |s.session| / 4 > windowSize / 4 then "" else s.session;
            Joined(Trimmed(s, windowSize)) == JoinTexts(BaseTexts(s) + [knowledge] + [session])
            && SumTokens(Trimmed(s, windowSize)) == base + |knowledge| / 4 + |session| / 4
  {
    TrimmedSay(s);
  }
}
