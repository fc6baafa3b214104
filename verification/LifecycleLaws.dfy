/** What every reachable connection keeps, with the heartbeat failing at any moment. */
module LifecycleLaws {
  import opened Lifecycle
  import Sse

  datatype Step =
    | Initialize
    | Fail                                            // a missed heartbeat, or the end of the read loop
    | BeginRegister(register: RegisterRequest)
    | EndRegister
    | BeginUpdate(update: UpdateRequest, via: Method)
    | EndUpdate
    | Degrade                                         // a dependency turns unhealthy
    | Recover                                         // and healthy again

  function Stepped(c: Conn, step: Step): Conn {
    match step
    case Initialize => Initialized(c)
    case Fail => Transitioned(c, Failed)
    case BeginRegister(r) => RegisterBegun(c, r)
    case EndRegister => RegisterDone(c)
    case BeginUpdate(u, m) => UpdateBegun(c, u, m)
    case EndUpdate => UpdateDone(c)
    case Degrade => Transitioned(c, Degraded)
    case Recover => if c.state == Degraded then Transitioned(c, Ready) else c
  }

  function Ran(requiresAuth: bool, steps: seq<Step>): Conn {
    if steps == [] then New(requiresAuth) else Stepped(Ran(requiresAuth, steps[..|steps| - 1]), steps[|steps| - 1])
  }

  /** A registration that brings the connection to Ready. */
  predicate Succeeds(c: Conn, step: Step) {
    step.EndRegister? && c.handler.InRegister? && c.handler.register.version == VERSION && c.state == Registering
  }

  function Registrations(requiresAuth: bool, steps: seq<Step>): nat {
    if steps == [] then 0
    else
      var init := steps[..|steps| - 1];
      Registrations(requiresAuth, init) + if Succeeds(Ran(requiresAuth, init), steps[|steps| - 1]) then 1 else 0
  }

  // ---------------------------------------------------------------- the catalog

  /** Only valid tools, each under its own key. */
  ghost predicate Catalogued(catalog: map<string, Tool>) {
    forall k :: k in catalog ==> IsValid(catalog[k]) && k == ToolKey(catalog[k])
  }

  lemma {:induction false} ValidOnesExactly(tools: seq<Tool>, t: Tool)
    ensures t in ValidOnes(tools) <==> t in tools && IsValid(t)
  {
    if tools != [] {
      var init, last := tools[..|tools| - 1], tools[|tools| - 1];
      ValidOnesExactly(init, t);
      assert tools == init + [last];
    }
  }

  lemma {:induction false} WithToolsCatalogued(catalog: map<string, Tool>, tools: seq<Tool>)
    requires Catalogued(catalog) && forall t :: t in tools ==> IsValid(t)
    ensures Catalogued(WithTools(catalog, tools))
  {
    if tools != [] {
      var init, last := tools[..|tools| - 1], tools[|tools| - 1];
      assert last in tools && forall t :: t in init ==> t in tools;
      WithToolsCatalogued(catalog, init);
    }
  }

  lemma RegisteredCatalog(tools: seq<Tool>)
    ensures Catalogued(WithTools(map[], ValidOnes(tools)))
  {
    forall t | t in ValidOnes(tools) ensures IsValid(t) {
      ValidOnesExactly(tools, t);
    }
    WithToolsCatalogued(map[], ValidOnes(tools));
  }

  lemma UpdatedCatalog(catalog: map<string, Tool>, u: UpdateRequest)
    requires Catalogued(catalog) && AllValid(u.added)
    ensures Catalogued(WithTools(WithoutNames(catalog, u.removed), u.added))
  {
    WithToolsCatalogued(WithoutNames(catalog, u.removed), u.added);
  }

  /** What a key holds after tools are put in: the last tool with that key, or what was there. */
  lemma {:induction false} KeyHolds(catalog: map<string, Tool>, tools: seq<Tool>, k: string, last: int)
    requires -1 <= last < |tools| && (last >= 0 ==> ToolKey(tools[last]) == k)
    requires forall i :: last < i < |tools| ==> ToolKey(tools[i]) != k
    ensures if last >= 0 then k in WithTools(catalog, tools) && WithTools(catalog, tools)[k] == tools[last]
            else (k in WithTools(catalog, tools) <==> k in catalog)
                 && (k in catalog ==> WithTools(catalog, tools)[k] == catalog[k])
  {
    if tools != [] && last < |tools| - 1 {
      KeyHolds(catalog, tools[..|tools| - 1], k, last);
    }
  }

  lemma {:induction false} KeysHold(catalog: map<string, Tool>, tools: seq<Tool>, k: string)
    ensures var next := WithTools(catalog, tools);
            (k in next ==> (k in catalog && next[k] == catalog[k]) || (next[k] in tools && ToolKey(next[k]) == k))
            && ((exists t :: t in tools && ToolKey(t) == k) ==> k in next && next[k] in tools)
            && (k in catalog ==> k in next)
  {
    if tools != [] {
      var init, last := tools[..|tools| - 1], tools[|tools| - 1];
      KeysHold(catalog, init, k);
      assert tools == init + [last];
    }
  }

  /**
   Every tool reported as registered is in the catalog exactly when no two different ones share a
   key; otherwise the later one silently replaces the earlier.
   */
  lemma AllRegisteredStay(tools: seq<Tool>)
    ensures var catalog := WithTools(map[], tools);
            (forall t :: t in tools ==> ToolKey(t) in catalog && catalog[ToolKey(t)] == t) <==>
            (forall t, u :: t in tools && u in tools && ToolKey(t) == ToolKey(u) ==> t == u)
  {
    var catalog := WithTools(map[], tools);
    forall t | t in tools
      ensures var k := ToolKey(t); k in catalog && catalog[k] in tools && ToolKey(catalog[k]) == k
    {
      KeysHold(map[], tools, ToolKey(t));
    }
  }

  /** A tool is valid exactly when it is named, described, has a JSON schema, and known risk and envelope. */
  lemma ValidExactly(t: Tool)
    ensures IsValid(t) <==>
            Sse.Trim(t.name) != "" && Sse.Trim(t.description) != "" && t.inputSchema.ValidJson?
            && !t.risk.OtherRisk? && !t.envelope.OtherEnvelope?
    ensures Sse.Trim(t.name) == "" ==> ValidateTool(t).value == NameRequired
    ensures IsValid(t.(inputSchema := ValidJson(""))) && !IsValid(t) ==>
              ValidateTool(t).value == if t.inputSchema.NoSchema? then SchemaRequired else SchemaInvalid
    ensures IsValid(t.(risk := Write)) && !IsValid(t) ==> ValidateTool(t).value == RiskInvalid
    ensures IsValid(t.(envelope := Text)) && !IsValid(t) ==> ValidateTool(t).value == EnvelopeInvalid
    ensures IsValid(t.(description := ['d'])) && !IsValid(t) ==> ValidateTool(t).value == DescriptionRequired
  {
  }

  /** Every offered tool is registered or rejected, and a rejection names an invalid one and its reason. */
  lemma {:induction false} SplitExactly(tools: seq<Tool>)
    ensures |ValidOnes(tools)| + |RejectedOnes(tools)| == |tools|
    ensures forall r :: r in RejectedOnes(tools) <==>
                        exists t :: t in tools && !IsValid(t) && r == Rejected(t.name, ValidateTool(t).value)
  {
    if tools != [] {
      var init, last := tools[..|tools| - 1], tools[|tools| - 1];
      SplitExactly(init);
      assert tools == init + [last];
      forall r ensures r in RejectedOnes(tools) <==>
                       exists t :: t in tools && !IsValid(t) && r == Rejected(t.name, ValidateTool(t).value)
      {
        assert r in RejectedOnes(init) ==>
               exists t :: t in init && !IsValid(t) && r == Rejected(t.name, ValidateTool(t).value);
      }
    }
  }

  ghost predicate Offers(tools: seq<Tool>, k: string) {
    exists t :: t in tools && ToolKey(t) == k
  }

  /**
   A registration of the right version makes the connection Ready with the project, that version and
   exactly the valid tools offered under their keys; any other version fails it and changes no catalog.
   */
  lemma RegisteredExactly(c: Conn, k: string)
    requires c.handler.InRegister? && c.state == Registering
    ensures var r, next := c.handler.register, RegisterDone(c);
            next.handler == Idle
            && (if r.version == "1" then
                  next.state == Ready && next.version == "1" && next.project == r.project
                  && (k in next.tools <==> Offers(ValidOnes(r.tools), k))
                  && (k in next.tools ==> next.tools[k] in r.tools && IsValid(next.tools[k]))
                else next.state == Failed && next.tools == c.tools && next.version == c.version)
  {
    var valid := ValidOnes(c.handler.register.tools);
    KeysHold(map[], valid, k);
    if k in WithTools(map[], valid) {
      ValidOnesExactly(c.handler.register.tools, WithTools(map[], valid)[k]);
    }
  }

  /**
   An update of valid tools leaves out those of the removed names, whatever their namespaces, and then
   has the added ones; with one invalid tool it changes nothing.
   */
  lemma UpdatedExactly(c: Conn, k: string)
    requires c.handler.InUpdate?
    ensures var u, next := c.handler.update, UpdateDone(c);
            next == c.(handler := Idle, tools := next.tools)
            && (if forall t :: t in u.added ==> IsValid(t) then
                  (k in next.tools <==> Offers(u.added, k) || (k in c.tools && c.tools[k].name !in u.removed))
                  && (Offers(u.added, k) ==> next.tools[k] in u.added)
                  && (k in next.tools && !Offers(u.added, k) ==> next.tools[k] == c.tools[k])
                else next.tools == c.tools)
  {
    var u := c.handler.update;
    KeysHold(WithoutNames(c.tools, u.removed), u.added, k);
  }

  // ---------------------------------------------------------------- the invariant

  predicate Operational(state: ConnState) {
    state == Ready || state == Degraded
  }

  predicate BeforeReady(state: ConnState) {
    state == Connecting || state == Authenticating || state == Registering
  }

  /** `n` is the number of successful registrations so far. */
  ghost predicate Valid(c: Conn, n: nat) {
    && c.state in c.visited && (Operational(c.state) || BeforeReady(c.state) || c.state == Failed)
    && n <= 1 && (Ready in c.visited <==> n == 1)
    && (Operational(c.state) ==> n == 1 && c.version == VERSION)
    && (BeforeReady(c.state) ==> n == 0 && c.version == "" && c.tools == map[])
    && (c.handler.InRegister? ==> n == 0 && (c.state == Registering || c.state == Failed))
    && (c.handler.InUpdate? ==> n == 1 && (Operational(c.state) || c.state == Failed))
    && Catalogued(c.tools)
  }

  lemma RegisterKeeps(c: Conn, n: nat)
    requires Valid(c, n)
    ensures Valid(RegisterDone(c), if Succeeds(c, EndRegister) then n + 1 else n)
  {
    if c.handler.InRegister? {
      RegisteredCatalog(c.handler.register.tools);
    }
  }

  lemma UpdateKeeps(c: Conn, n: nat)
    requires Valid(c, n)
    ensures Valid(UpdateDone(c), n)
  {
    if c.handler.InUpdate? && AllValid(c.handler.update.added) {
      UpdatedCatalog(c.tools, c.handler.update);
    }
  }

  lemma StepKeeps(c: Conn, n: nat, step: Step)
    requires Valid(c, n)
    ensures Valid(Stepped(c, step), if Succeeds(c, step) then n + 1 else n)
  {
    match step
    case EndRegister => RegisterKeeps(c, n);
    case EndUpdate => UpdateKeeps(c, n);
    case _ =>
  }

  lemma {:induction false} RunIsValid(requiresAuth: bool, steps: seq<Step>)
    ensures Valid(Ran(requiresAuth, steps), Registrations(requiresAuth, steps))
  {
    if steps != [] {
      var init := steps[..|steps| - 1];
      RunIsValid(requiresAuth, init);
      StepKeeps(Ran(requiresAuth, init), Registrations(requiresAuth, init), steps[|steps| - 1]);
    }
  }

  /** In every reachable state, a connection in operation has registered exactly once, and properly. */
  lemma OperationalMeansRegistered(requiresAuth: bool, steps: seq<Step>)
    ensures var c := Ran(requiresAuth, steps);
            Catalogued(c.tools)
            && Registrations(requiresAuth, steps) <= 1
            && (Operational(c.state) ==> Registrations(requiresAuth, steps) == 1 && c.version == VERSION)
            && (BeforeReady(c.state) ==> c.tools == map[] && c.version == "")
  {
    RunIsValid(requiresAuth, steps);
  }

  // ---------------------------------------------------------------- moves

  /** The moves the connection's design lists. */
  predicate Listed(from: ConnState, to: ConnState) {
    || (from == Connecting && (to == Authenticating || to == Registering))
    || (from == Authenticating && to == Registering)
    || (from == Registering && to == Ready)
    || (from == Ready && to == Degraded)
    || (from == Degraded && to == Ready)
    || (to == Failed && (from == Connecting || from == Authenticating || from == Registering || from == Ready
                         || from == Degraded))
  }

  /** A connection moves exactly along the listed moves, and remembers where it was. */
  lemma MovesExactly(c: Conn, to: ConnState)
    ensures Transitioned(c, to) ==
            if Listed(c.state, to) then c.(state := to, visited := c.visited + {to}) else c
  {
  }

  /** Initialization ends in Registering, through Authenticating when that is required. */
  lemma InitializedExactly(requiresAuth: bool)
    ensures Initialized(New(requiresAuth)).state == Registering
    ensures Initialized(New(requiresAuth)).visited ==
            {Connecting, Registering} + if requiresAuth then {Authenticating} else {}
  {
  }

  /** What is served: everything in operation, a ping before it, and a registration while registering. */
  lemma ServedExactly(state: ConnState, m: Method)
    ensures MayDispatch(state, m) <==>
            Operational(state) || (m == ConnectionPing && (state == Authenticating || state == Registering))
            || (m == CapabilitiesRegister && state == Registering)
  {
  }

  /** Every step but initialization makes at most one move, and a listed one. */
  lemma MovesAreListed(c: Conn, step: Step)
    requires step != Initialize
    ensures Stepped(c, step).state == c.state || Stepped(c, step).state in ValidTransitions(c.state)
  {
  }

  lemma FailedStays(c: Conn, step: Step)
    requires c.state == Failed
    ensures Stepped(c, step).state == Failed
  {
  }

  /** Failed is never left. */
  lemma {:induction false} FailedIsFinal(requiresAuth: bool, steps: seq<Step>, n: nat)
    requires n <= |steps| && Ran(requiresAuth, steps[..n]).state == Failed
    ensures Ran(requiresAuth, steps).state == Failed
    decreases |steps|
  {
    if n < |steps| {
      var init := steps[..|steps| - 1];
      assert init[..n] == steps[..n];
      FailedIsFinal(requiresAuth, init, n);
      FailedStays(Ran(requiresAuth, init), steps[|steps| - 1]);
    } else {
      assert steps[..n] == steps;
    }
  }

  /** Authentication is passed on the way to Registering, and only when it is required. */
  ghost predicate Authenticated(c: Conn) {
    (Authenticating in c.visited ==> c.requiresAuth)
    && (Registering in c.visited && c.requiresAuth ==> Authenticating in c.visited)
    && (c.state == Authenticating ==> c.requiresAuth) && (Operational(c.state) ==> Registering in c.visited)
    && (Ready in c.visited ==> Registering in c.visited) && c.state in c.visited
  }

  lemma StepAuthenticated(c: Conn, step: Step)
    requires Authenticated(c)
    ensures Authenticated(Stepped(c, step)) && Stepped(c, step).requiresAuth == c.requiresAuth
  {
  }

  /** Nothing is served on a connection that requires authentication before it went through it. */
  lemma {:induction false} AuthenticationIsPassed(requiresAuth: bool, steps: seq<Step>)
    ensures var c := Ran(requiresAuth, steps);
            Authenticated(c) && c.requiresAuth == requiresAuth
            && (Ready in c.visited ==> (Authenticating in c.visited <==> requiresAuth))
  {
    if steps != [] {
      AuthenticationIsPassed(requiresAuth, steps[..|steps| - 1]);
      StepAuthenticated(Ran(requiresAuth, steps[..|steps| - 1]), steps[|steps| - 1]);
    }
  }

  /** Once Ready was reached, a replayed registration changes nothing. */
  lemma ReplayIsRefused(requiresAuth: bool, steps: seq<Step>, r: RegisterRequest)
    requires Ready in Ran(requiresAuth, steps).visited
    ensures RegisterBegun(Ran(requiresAuth, steps), r) == Ran(requiresAuth, steps)
  {
    RunIsValid(requiresAuth, steps);
  }

  // ---------------------------------------------------------------- a successful answer

  /**
   A registration of the right version is answered with success; the connection is then Ready
   exactly when it had not failed while the handler ran.
   */
  lemma SuccessMeansReady(requiresAuth: bool, steps: seq<Step>)
    requires Ran(requiresAuth, steps).handler.InRegister?
    requires Ran(requiresAuth, steps).handler.register.version == VERSION
    ensures RegisterDone(Ran(requiresAuth, steps)).state == Ready <==> Ran(requiresAuth, steps).state != Failed
  {
    RunIsValid(requiresAuth, steps);
  }

  /** A missed heartbeat in between: the registration succeeds on a connection that has failed. */
  lemma SuccessOnFailedConnection(r: RegisterRequest)
    requires r.version == VERSION
    ensures var before := Ran(false, [Initialize, BeginRegister(r), Fail]);
            before.handler == InRegister(r) && before.state == Failed
            && RegisterDone(before).version == VERSION && RegisterDone(before).state == Failed
  {
    var steps := [Initialize, BeginRegister(r), Fail];
    assert steps[..2] == [Initialize, BeginRegister(r)] && steps[..2][..1] == [Initialize] && [Initialize][..0] == [];
    var c1 := Ran(false, [Initialize]);
    assert c1 == Stepped(New(false), Initialize) && c1.state == Registering && c1.handler == Idle;
    var c2 := Ran(false, steps[..2]);
    assert c2 == Stepped(c1, BeginRegister(r)) && c2.state == Registering && c2.handler == InRegister(r);
    assert Ran(false, steps) == Stepped(c2, Fail);
  }

  /** A plain name with a colon has the key of a name in a namespace: only the later tool stays. */
  lemma KeysCanCollide(t: Tool)
    ensures var a, b := t.(namespace := "", name := ['a', ':', 'b']), t.(namespace := ['a'], name := ['b']);
            var tools := [a] + [b];
            a != b && WithTools(map[], tools) == map[ToolKey(a) := b]
  {
    var a, b := t.(namespace := "", name := ['a', ':', 'b']), t.(namespace := ['a'], name := ['b']);
    assert ToolKey(a) == ['a', ':', 'b'] == ['a'] + [':'] + ['b'] == ToolKey(b);
    assert ([a] + [b])[..1] == [a] && [a][..0] == [];
    assert WithTools(map[], [a]) == map[ToolKey(a) := a];
  }
}
