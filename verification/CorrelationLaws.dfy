/** What holds in every state that any interleaving of callers, reader and close can reach. */
module CorrelationLaws {
  import opened Wrappers
  import opened Numbers
  import opened Correlation

  /** The key of the call in this place: its identifier is its place plus one, by `IdsAreConsecutive`. */
  function KeyAt<K>(keyOf: nat -> K, call: nat): K {
    keyOf(call + 1)
  }

  ghost predicate Injective<K(!new)>(keyOf: nat -> K) {
    forall m, n :: keyOf(m) == keyOf(n) ==> m == n
  }

  /** A pending entry belongs to a waiting call with an unused, open channel. */
  ghost predicate PendingOk<K(!new)>(s: Client<K>, keyOf: nat -> K) {
    forall k :: k in s.pending ==>
                  s.pending[k] < |s.calls| && k == KeyAt(keyOf, s.pending[k])
                  && s.calls[s.pending[k]] == Call(s.pending[k] + 1, Waiting, [], [], false)
  }

  /** What the reader holds is a response with the call's own key, for an unused, open channel. */
  ghost predicate FlightOk<K(!new)>(s: Client<K>, keyOf: nat -> K) {
    s.inFlight.Some? ==>
      var f := s.inFlight.value;
      f.call < |s.calls| && s.reading && f.response.key == KeyAt(keyOf, f.call) && KeyAt(keyOf, f.call) !in s.pending
      && (s.calls[f.call] == Call(f.call + 1, Waiting, [], [], false)
          || s.calls[f.call] == Call(f.call + 1, Failed, [], [], false))
  }

  predicate Holds<K(==)>(s: Client<K>, call: nat) {
    s.inFlight.Some? && s.inFlight.value.call == call
  }

  /** A call was sent at most one response, its own, and a waiting call will be woken. */
  ghost predicate CallOk<K(!new)>(s: Client<K>, keyOf: nat -> K, i: nat)
    requires i < |s.calls|
  {
    var c := s.calls[i];
    c.id == i + 1
    && (c.sent == [] || (|c.sent| == 1 && c.sent[0].key == KeyAt(keyOf, i)))
    && (if c.stage.Got? then c.slot == [] && c.sent == [c.stage.response] else c.slot == c.sent)
    && (c.closed ==> c.sent == [] && !s.reading)
    && (c.stage.Begun? ==> c.sent == [] && !c.closed)
    && (c.stage.Waiting? ==> (KeyAt(keyOf, i) in s.pending && s.pending[KeyAt(keyOf, i)] == i)
                             || Holds(s, i) || c.slot != [] || c.closed)
  }

  ghost predicate Valid<K(!new)>(s: Client<K>, keyOf: nat -> K) {
    s.nextId == |s.calls| && PendingOk(s, keyOf) && FlightOk(s, keyOf)
    && forall i :: 0 <= i < |s.calls| ==> CallOk(s, keyOf, i)
  }

  // ---------------------------------------------------------------- every step keeps it

  lemma BeginKeeps<K(!new)>(s: Client<K>, keyOf: nat -> K)
    requires Injective(keyOf) && Valid(s, keyOf)
    ensures Valid(Begins(s), keyOf)
  {
    var next := Begins(s);
    forall i | 0 <= i < |next.calls| ensures CallOk(next, keyOf, i) {
      assert i < |s.calls| ==> CallOk(s, keyOf, i);
    }
  }

  lemma RegisterKeeps<K(!new)>(s: Client<K>, keyOf: nat -> K, call: nat)
    requires Injective(keyOf) && Valid(s, keyOf)
    ensures Valid(Registers(s, keyOf, call), keyOf)
  {
    var next := Registers(s, keyOf, call);
    if s.inFlight.Some? {
      var held := s.inFlight.value.call;
      assert KeyAt(keyOf, held) == KeyAt(keyOf, call) ==> held == call;
    }
    if InStage(s, call, Begun) {
      assert CallOk(s, keyOf, call);
    }
    forall i | 0 <= i < |next.calls| ensures CallOk(next, keyOf, i) {
      assert CallOk(s, keyOf, i);
      assert KeyAt(keyOf, i) == KeyAt(keyOf, call) ==> i == call;
    }
  }

  lemma GivingUpSpares<K(!new)>(s: Client<K>, keyOf: nat -> K, call: nat, i: nat)
    requires Injective(keyOf) && i < |s.calls| && call < |s.calls| && CallOk(s, keyOf, i) && CallOk(s, keyOf, call)
    ensures CallOk(GivesUp(s, keyOf, call), keyOf, i)
  {
    assert KeyAt(keyOf, i) == KeyAt(keyOf, call) ==> i == call;
  }

  lemma GiveUpKeeps<K(!new)>(s: Client<K>, keyOf: nat -> K, call: nat)
    requires Injective(keyOf) && Valid(s, keyOf)
    ensures Valid(GivesUp(s, keyOf, call), keyOf)
  {
    if call < |s.calls| {
      assert CallOk(s, keyOf, call);
      forall i | 0 <= i < |s.calls| ensures CallOk(GivesUp(s, keyOf, call), keyOf, i) {
        assert CallOk(s, keyOf, i);
        GivingUpSpares(s, keyOf, call, i);
      }
    }
  }

  lemma TakeKeeps<K(!new)>(s: Client<K>, keyOf: nat -> K, r: Response<K>)
    requires Injective(keyOf) && Valid(s, keyOf)
    ensures Valid(Takes(s, r), keyOf)
  {
    var next := Takes(s, r);
    forall i | 0 <= i < |next.calls| ensures CallOk(next, keyOf, i) {
      assert CallOk(s, keyOf, i);
    }
  }

  lemma SendKeeps<K(!new)>(s: Client<K>, keyOf: nat -> K)
    requires Injective(keyOf) && Valid(s, keyOf)
    ensures Valid(Sends(s), keyOf)
  {
    var next := Sends(s);
    forall i | 0 <= i < |next.calls| ensures CallOk(next, keyOf, i) {
      assert CallOk(s, keyOf, i);
    }
  }

  lemma ReceiveKeeps<K(!new)>(s: Client<K>, keyOf: nat -> K, call: nat)
    requires Injective(keyOf) && Valid(s, keyOf)
    ensures Valid(Receives(s, call), keyOf) && Valid(SeesClosed(s, call), keyOf)
  {
    if InStage(s, call, Waiting) {
      assert CallOk(s, keyOf, call);
    }
    forall i | 0 <= i < |s.calls| ensures CallOk(Receives(s, call), keyOf, i) && CallOk(SeesClosed(s, call), keyOf, i) {
      assert CallOk(s, keyOf, i);
    }
  }

  lemma ExitKeeps<K(!new)>(s: Client<K>, keyOf: nat -> K)
    requires Injective(keyOf) && Valid(s, keyOf)
    ensures Valid(Exits(s), keyOf)
  {
    forall i | 0 <= i < |s.calls| ensures CallOk(Exits(s), keyOf, i) {
      assert CallOk(s, keyOf, i);
    }
  }

  lemma SweepKeeps<K(!new)>(s: Client<K>, keyOf: nat -> K)
    requires Injective(keyOf) && Valid(s, keyOf)
    ensures Valid(Sweeps(s), keyOf)
  {
    var next := Sweeps(s);
    forall i | 0 <= i < |next.calls| ensures CallOk(next, keyOf, i) {
      assert CallOk(s, keyOf, i);
      if i in s.pending.Values {
        var k :| k in s.pending && s.pending[k] == i;
      }
    }
  }

  lemma StepKeeps<K(!new)>(s: Client<K>, keyOf: nat -> K, step: Step<K>)
    requires Injective(keyOf) && Valid(s, keyOf)
    ensures Valid(Stepped(s, keyOf, step), keyOf)
  {
    match step
    case Begin => BeginKeeps(s, keyOf);
    case Register(call) => RegisterKeeps(s, keyOf, call);
    case GiveUp(call) => GiveUpKeeps(s, keyOf, call);
    case Take(r) => TakeKeeps(s, keyOf, r);
    case Send => SendKeeps(s, keyOf);
    case Receive(call) => ReceiveKeeps(s, keyOf, call);
    case ExitReader => ExitKeeps(s, keyOf);
    case Sweep => SweepKeeps(s, keyOf);
    case SeeClosed(call) => ReceiveKeeps(s, keyOf, call);
  }

  lemma {:induction false} RunIsValid<K(!new)>(keyOf: nat -> K, steps: seq<Step<K>>)
    requires Injective(keyOf)
    ensures Valid(Ran(keyOf, steps), keyOf)
  {
    if steps != [] {
      RunIsValid(keyOf, steps[..|steps| - 1]);
      StepKeeps(Ran(keyOf, steps[..|steps| - 1]), keyOf, steps[|steps| - 1]);
    }
  }

  // ---------------------------------------------------------------- what it means

  lemma StepKeepsIds<K(!new)>(s: Client<K>, keyOf: nat -> K, step: Step<K>)
    requires s.nextId == |s.calls|
    ensures var next := Stepped(s, keyOf, step);
            next.nextId == |next.calls| >= |s.calls|
            && (forall i :: 0 <= i < |s.calls| ==> next.calls[i].id == s.calls[i].id)
            && (forall i :: |s.calls| <= i < |next.calls| ==> next.calls[i].id == i + 1)
  {
  }

  /** Over every run, whatever the keys, the calls carry the numbers 1, 2, 3 and so on, one each. */
  lemma {:induction false} IdsAreConsecutive<K(!new)>(keyOf: nat -> K, steps: seq<Step<K>>)
    ensures var s := Ran(keyOf, steps);
            s.nextId == |s.calls| && forall i :: 0 <= i < |s.calls| ==> s.calls[i].id == i + 1
  {
    if steps != [] {
      IdsAreConsecutive(keyOf, steps[..|steps| - 1]);
      StepKeepsIds(Ran(keyOf, steps[..|steps| - 1]), keyOf, steps[|steps| - 1]);
    }
  }

  /** An identifier is never changed once it is taken. */
  lemma {:induction false} IdsAreKept<K(!new)>(keyOf: nat -> K, steps: seq<Step<K>>, n: nat)
    requires n <= |steps|
    ensures var before, after := Ran(keyOf, steps[..n]), Ran(keyOf, steps);
            |before.calls| <= |after.calls|
            && forall i :: 0 <= i < |before.calls| ==> after.calls[i].id == before.calls[i].id
  {
    IdsAreConsecutive(keyOf, steps[..n]);
    if n == |steps| {
      assert steps[..n] == steps;
    } else {
      var init := steps[..|steps| - 1];
      assert init[..n] == steps[..n];
      IdsAreKept(keyOf, init, n);
      IdsAreConsecutive(keyOf, init);
      StepKeepsIds(Ran(keyOf, init), keyOf, steps[|steps| - 1]);
    }
  }

  /** No two requests of the protocol client carry the same identifier on the wire. */
  lemma IdsNeverReused(steps: seq<Step<string>>, i: nat, j: nat)
    requires i < j < |Ran(Decimal, steps).calls|
    ensures var calls := Ran(Decimal, steps).calls;
            calls[i].id < calls[j].id <= Ran(Decimal, steps).nextId && Decimal(calls[i].id) != Decimal(calls[j].id)
  {
    IdsAreConsecutive(Decimal, steps);
    DecimalKeysAreInjective();
    var a, b := Ran(Decimal, steps).calls[i].id, Ran(Decimal, steps).calls[j].id;
    assert a != b && (Decimal(a) == Decimal(b) ==> a == b);
  }

  /** Whenever the reader is about to send, the one slot is free and the channel is open: it never blocks. */
  lemma ReaderNeverBlocks<K(!new)>(keyOf: nat -> K, steps: seq<Step<K>>)
    requires Injective(keyOf) && Ran(keyOf, steps).inFlight.Some?
    ensures var s := Ran(keyOf, steps);
            var f := s.inFlight.value;
            f.call < |s.calls| && s.calls[f.call].slot == [] && s.calls[f.call].sent == [] && !s.calls[f.call].closed
  {
    RunIsValid(keyOf, steps);
  }

  /** No channel is sent to twice, nor both sent to and closed; a call receives only its own response. */
  lemma OneOwnResponse<K(!new)>(keyOf: nat -> K, steps: seq<Step<K>>, i: nat)
    requires Injective(keyOf) && i < |Ran(keyOf, steps).calls|
    ensures var c := Ran(keyOf, steps).calls[i];
            |c.sent| <= 1 && !(c.closed && c.sent != [])
            && (c.stage.Got? ==> c.sent == [c.stage.response] && c.stage.response.key == KeyAt(keyOf, i))
  {
    RunIsValid(keyOf, steps);
    assert CallOk(Ran(keyOf, steps), keyOf, i);
  }

  /** The reader can hear a response for a waiting call. */
  ghost predicate Hears<K(!new)>(s: Client<K>, keyOf: nat -> K, i: nat, step: Step<K>) {
    step.Take? && step.response.key == KeyAt(keyOf, i) && s.reading && s.inFlight.None? && InStage(s, i, Waiting)
  }

  /** The first response with a call's key that is read while the call waits. */
  ghost function FirstHeard<K(!new)>(keyOf: nat -> K, steps: seq<Step<K>>, i: nat): Option<Response<K>> {
    if steps == [] then None
    else
      var init, last := steps[..|steps| - 1], steps[|steps| - 1];
      if FirstHeard(keyOf, init, i).Some? then FirstHeard(keyOf, init, i)
      else if Hears(Ran(keyOf, init), keyOf, i, last) then Some(last.response)
      else None
  }

  /** The response taken for a call: in the reader's hands or already sent. */
  function Taken<K(==)>(s: Client<K>, i: nat): Option<Response<K>> {
    if Holds(s, i) then Some(s.inFlight.value.response)
    else if i < |s.calls| && s.calls[i].sent != [] then Some(s.calls[i].sent[0])
    else None
  }

  lemma TakeStep<K(!new)>(s: Client<K>, keyOf: nat -> K, step: Step<K>, i: nat)
    requires Injective(keyOf) && Valid(s, keyOf)
    ensures Taken(Stepped(s, keyOf, step), i) ==
            if Taken(s, i).Some? then Taken(s, i) else if Hears(s, keyOf, i, step) then Some(step.response) else None
  {
    if i < |s.calls| {
      assert CallOk(s, keyOf, i);
    }
    if step.Take? && step.response.key in s.pending {
      assert KeyAt(keyOf, i) == step.response.key ==> i == s.pending[step.response.key];
    }
  }

  /** What reaches a call, over any run, is the first response with its key read while it waits. */
  lemma {:induction false} FirstResponseWins<K(!new)>(keyOf: nat -> K, steps: seq<Step<K>>, i: nat)
    requires Injective(keyOf)
    ensures Taken(Ran(keyOf, steps), i) == FirstHeard(keyOf, steps, i)
  {
    if steps != [] {
      var init, last := steps[..|steps| - 1], steps[|steps| - 1];
      FirstResponseWins(keyOf, init, i);
      RunIsValid(keyOf, init);
      TakeStep(Ran(keyOf, init), keyOf, last, i);
    }
  }

  /** So later, duplicate and unknown responses never change what a call returns. */
  lemma ReturnsFirst<K(!new)>(keyOf: nat -> K, steps: seq<Step<K>>, i: nat)
    requires Injective(keyOf) && i < |Ran(keyOf, steps).calls| && Ran(keyOf, steps).calls[i].stage.Got?
    ensures FirstHeard(keyOf, steps, i) == Some(Ran(keyOf, steps).calls[i].stage.response)
  {
    FirstResponseWins(keyOf, steps, i);
    RunIsValid(keyOf, steps);
    assert CallOk(Ran(keyOf, steps), keyOf, i);
  }

  /** Right after the sweep every waiting call can return: its channel holds a response or is closed. */
  lemma SweepWakesAll<K(!new)>(keyOf: nat -> K, steps: seq<Step<K>>, i: nat)
    requires Injective(keyOf) && !Ran(keyOf, steps).reading
    requires InStage(Sweeps(Ran(keyOf, steps)), i, Waiting)
    ensures var c := Sweeps(Ran(keyOf, steps)).calls[i];
            c.slot != [] || c.closed
  {
    RunIsValid(keyOf, steps);
    SweepKeeps(Ran(keyOf, steps), keyOf);
    assert CallOk(Sweeps(Ran(keyOf, steps)), keyOf, i);
  }

  // ---------------------------------------------------------------- the keys of the two clients

  predicate IsBlank(c: char) {
    c == ' ' || c == '\t'
  }

  function TrimLeft(s: string): string {
    if s != "" && IsBlank(s[0]) then TrimLeft(s[1..]) else s
  }

  function TrimRight(s: string): string {
    if s != "" && IsBlank(s[|s| - 1]) then TrimRight(s[..|s| - 1]) else s
  }

  predicate IsQuoted(s: string) {
    |s| >= 2 && s[0] == '"' && s[|s| - 1] == '"'
  }

  /** The key of a response's raw identifier. */
  function StripQuotesAndSpaces(s: string): string {
    var t := TrimRight(TrimLeft(s));
    if IsQuoted(t) then t[1..|t| - 1] else t
  }

  method TrimSpaces(raw: string) returns (s: string)
    ensures s == TrimRight(TrimLeft(raw))
  {
    s := raw;
    while |s| > 0 && IsBlank(s[0])
      invariant TrimLeft(s) == TrimLeft(raw)
      decreases |s|
    {
      s := s[1..];
    }
    while |s| > 0 && IsBlank(s[|s| - 1])
      invariant TrimRight(s) == TrimRight(TrimLeft(raw))
      decreases |s|
    {
      s := s[..|s| - 1];
    }
  }

  lemma UnquotedExactly(t: string, d: string)
    requires d != "" && '"' !in d
    ensures (if IsQuoted(t) then t[1..|t| - 1] else t) == d <==> t == d || t == ['"'] + d + ['"']
  {
    if IsQuoted(t) {
      assert t[0] in t;
      assert t == ['"'] + t[1..|t| - 1] + ['"'];
    }
  }

  /** A response answers the n-th request exactly when its identifier, trimmed, is n, quoted or not. */
  lemma KeyIsExact(raw: string, n: nat)
    ensures var t := TrimRight(TrimLeft(raw));
            StripQuotesAndSpaces(raw) == Decimal(n) <==> t == Decimal(n) || t == ['"'] + Decimal(n) + ['"']
  {
    assert '"' !in DIGITS;
    UnquotedExactly(TrimRight(TrimLeft(raw)), Decimal(n));
  }

  /** Nothing but spaces and tabs. */
  ghost predicate Padding(s: string) {
    forall i :: 0 <= i < |s| ==> s[i] == ' ' || s[i] == '\t'
  }

  lemma {:induction false} LeftPaddingGoes(pad: string, s: string)
    requires Padding(pad) && s != "" && !IsBlank(s[0])
    ensures TrimLeft(pad + s) == s
  {
    if pad == "" {
      assert pad + s == s;
    } else {
      assert (pad + s)[1..] == pad[1..] + s;
      LeftPaddingGoes(pad[1..], s);
    }
  }

  lemma {:induction false} RightPaddingGoes(s: string, pad: string)
    requires Padding(pad) && s != "" && !IsBlank(s[|s| - 1])
    ensures TrimRight(s + pad) == s
  {
    if pad == "" {
      assert s + pad == s;
    } else {
      assert (s + pad)[..|s + pad| - 1] == s + pad[..|pad| - 1];
      RightPaddingGoes(s, pad[..|pad| - 1]);
    }
  }

  /** Spaces and tabs around a response's identifier do not matter. */
  lemma PaddedKey(n: nat, before: string, after: string)
    requires Padding(before) && Padding(after)
    ensures StripQuotesAndSpaces(before + (Decimal(n) + after)) == Decimal(n)
  {
    var d := Decimal(n);
    assert d[0] in d && d[|d| - 1] in d && ' ' !in DIGITS && '\t' !in DIGITS && '"' !in DIGITS;
    LeftPaddingGoes(before, d + after);
    RightPaddingGoes(d, after);
  }

  /** The keys of the protocol client never repeat. */
  lemma DecimalKeysAreInjective()
    ensures Injective(Decimal)
  {
    forall m: nat, n: nat | Decimal(m) == Decimal(n) ensures m == n {
      DecimalInjective(m, n);
    }
  }
}
