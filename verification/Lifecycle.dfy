/**
 A server connection and its tool catalog (internal/runtime/connection.go, capabilities.go). The
 heartbeat monitor runs beside the request handlers, so a handler is two steps: its checks, and its effect.
 */
module Lifecycle {
  import opened Wrappers
  import Sse

  datatype ConnState = Discovering | Starting | Connecting | Authenticating | Registering | Ready | Degraded
                     | Reconnecting | Failed

  const VERSION := "1"
  const MAX_FRAME := 10 * 1024 * 1024
  const DEFAULT_ATTACHMENT := 5 * 1024 * 1024

  datatype Risk = ReadOnly | Write | Execute | Destructive | OtherRisk(name: string)

  datatype Envelope = Text | Json | Binary | Image | OtherEnvelope(name: string)

  datatype Schema = NoSchema | InvalidJson | ValidJson(text: string)

  datatype Tool = Tool(name: string, namespace: string, description: string, inputSchema: Schema, envelope: Envelope,
                       risk: Risk)

  datatype Reason = NameRequired | DescriptionRequired | SchemaRequired | SchemaInvalid | RiskInvalid | EnvelopeInvalid

  datatype Rejected = Rejected(name: string, reason: Reason)

  datatype Method = CapabilitiesRegister | ConnectionPing | OtherMethod(name: string)

  datatype RegisterRequest = RegisterRequest(version: string, tools: seq<Tool>, project: string)

  /** What a successful registration answers: the split of the tools and the server's own limits. */
  datatype RegisterAnswer = RegisterAnswer(registered: seq<Tool>, rejected: seq<Rejected>, version: string,
                                           maxFrame: int, maxAttachment: int)

  datatype UpdateAnswer = Updated(addedCount: nat, removedCount: nat, at: int) | Refused(tool: Rejected)

  datatype UpdateRequest = UpdateRequest(added: seq<Tool>, removed: seq<string>)

  // ---------------------------------------------------------------- pure checks

  function ValidTransitions(from: ConnState): seq<ConnState> {
    match from
    case Connecting => [Authenticating, Registering, Failed]
    case Authenticating => [Registering, Failed]
    case Registering => [Ready, Failed]
    case Ready => [Degraded, Failed]
    case Degraded => [Ready, Failed]
    case _ => []
  }

  predicate MayDispatch(state: ConnState, m: Method) {
    match state
    case Ready => true
    case Degraded => true
    case Registering => m == CapabilitiesRegister || m == ConnectionPing
    case Authenticating => m == ConnectionPing
    case _ => false
  }

  function ValidateTool(t: Tool): Option<Reason> {
    if Sse.Trim(t.name) == "" then Some(NameRequired)
    else if Sse.Trim(t.description) == "" then Some(DescriptionRequired)
    else if t.inputSchema.NoSchema? then Some(SchemaRequired)
    else if t.inputSchema.InvalidJson? then Some(SchemaInvalid)
    else if t.risk.OtherRisk? then Some(RiskInvalid)
    else if t.envelope.OtherEnvelope? then Some(EnvelopeInvalid)
    else None
  }

  predicate IsValid(t: Tool) {
    ValidateTool(t).None?
  }

  function ToolKey(t: Tool): string {
    if t.namespace == "" then t.name else t.namespace + [':'] + t.name
  }

  // ---------------------------------------------------------------- the catalog

  function ValidOnes(tools: seq<Tool>): seq<Tool> {
    if tools == [] then []
    else
      var front, t := ValidOnes(tools[..|tools| - 1]), tools[|tools| - 1];
      if IsValid(t) then front + [t] else front
  }

  function RejectedOnes(tools: seq<Tool>): seq<Rejected> {
    if tools == [] then []
    else
      var front, t := RejectedOnes(tools[..|tools| - 1]), tools[|tools| - 1];
      if IsValid(t) then front else front + [Rejected(t.name, ValidateTool(t).value)]
  }

  /** The catalog with these tools put in, in order: the last one of a key stays. */
  function WithTools(catalog: map<string, Tool>, tools: seq<Tool>): map<string, Tool> {
    if tools == [] then catalog
    else
      var t := tools[|tools| - 1];
      WithTools(catalog, tools[..|tools| - 1])[ToolKey(t) := t]
  }

  /** The catalog without any tool of these plain names, whatever its namespace. */
  function WithoutNames(catalog: map<string, Tool>, names: seq<string>): map<string, Tool> {
    map k | k in catalog && catalog[k].name !in names :: catalog[k]
  }

  class CapabilityManager {
    var negotiatedVersion: string
    var tools: map<string, Tool>
    var project: string

    constructor ()
      ensures negotiatedVersion == "" && tools == map[] && project == ""
    {
      negotiatedVersion, tools, project := "", map[], "";
    }

    method ReplaceTools(registered: seq<Tool>)
      modifies this`tools
      ensures tools == WithTools(map[], registered)
    {
      tools := map[];
      for i := 0 to |registered|
        invariant tools == WithTools(map[], registered[..i])
      {
        assert registered[..i + 1][..i] == registered[..i];
        tools := tools[ToolKey(registered[i]) := registered[i]];
      }
      assert registered[..|registered|] == registered;
    }

    /** Answers with the lengths of both lists, whether or not a name matched. */
    method ApplyUpdate(added: seq<Tool>, removed: seq<string>) returns (addedCount: nat, removedCount: nat)
      modifies this`tools
      ensures addedCount == |added| && removedCount == |removed|
      ensures tools == WithTools(WithoutNames(old(tools), removed), added)
    {
      for i := 0 to |removed|
        invariant tools == WithoutNames(old(tools), removed[..i])
      {
        assert removed[..i + 1] == removed[..i] + [removed[i]];
        tools := map k | k in tools && tools[k].name != removed[i] :: tools[k];
      }
      assert removed[..|removed|] == removed;
      for i := 0 to |added|
        invariant tools == WithTools(WithoutNames(old(tools), removed), added[..i])
      {
        assert added[..i + 1][..i] == added[..i];
        tools := tools[ToolKey(added[i]) := added[i]];
      }
      assert added[..|added|] == added;
      addedCount, removedCount := |added|, |removed|;
    }
  }

  // ---------------------------------------------------------------- the connection as a value

  datatype Handler = Idle | InRegister(register: RegisterRequest) | InUpdate(update: UpdateRequest)

  datatype Conn = Conn(requiresAuth: bool, state: ConnState, visited: set<ConnState>, version: string,
                       tools: map<string, Tool>, project: string, handler: Handler)

  function New(requiresAuth: bool): Conn {
    Conn(requiresAuth, Connecting, {Connecting}, "", map[], "", Idle)
  }

  function Transitioned(c: Conn, to: ConnState): Conn {
    if to in ValidTransitions(c.state) then c.(state := to, visited := c.visited + {to}) else c
  }

  function Initialized(c: Conn): Conn {
    Transitioned(if c.requiresAuth then Transitioned(c, Authenticating) else c, Registering)
  }

  /** The register handler's checks; it goes on only in state Registering. */
  function RegisterBegun(c: Conn, r: RegisterRequest): Conn {
    if c.handler == Idle && MayDispatch(c.state, CapabilitiesRegister) && c.state == Registering then
      c.(handler := InRegister(r))
    else c
  }

  /** Its effect: failure on a foreign version, otherwise version, tools, project and then the state. */
  function RegisterDone(c: Conn): Conn {
    if !c.handler.InRegister? then c
    else
      var r := c.handler.register;
      if r.version != VERSION then Transitioned(c.(handler := Idle), Failed)
      else
        Transitioned(c.(handler := Idle, version := r.version, tools := WithTools(map[], ValidOnes(r.tools)),
                     project := r.project),
                     Ready)
  }

  function UpdateBegun(c: Conn, u: UpdateRequest, m: Method): Conn {
    if c.handler == Idle && m.OtherMethod? && MayDispatch(c.state, m) then c.(handler := InUpdate(u)) else c
  }

  predicate AllValid(tools: seq<Tool>) {
    forall t | t in tools :: IsValid(t)
  }

  /** An update applies as a whole or not at all. */
  function UpdateDone(c: Conn): Conn {
    if !c.handler.InUpdate? then c
    else
      var u, idle := c.handler.update, c.(handler := Idle);
      if AllValid(u.added) then idle.(tools := WithTools(WithoutNames(c.tools, u.removed), u.added)) else idle
  }

  // ---------------------------------------------------------------- the mutable connection

  class Connection {
    const requiresAuth: bool
    const capabilities: CapabilityManager
    var state: ConnState
    var visited: set<ConnState>
    var handler: Handler

    function View(): Conn
      reads this, capabilities
    {
      Conn(requiresAuth, state, visited, capabilities.negotiatedVersion, capabilities.tools, capabilities.project,
           handler)
    }

    constructor (requiresAuth: bool)
      ensures View() == New(requiresAuth) && fresh(capabilities)
    {
      this.requiresAuth := requiresAuth;
      capabilities := new CapabilityManager();
      state, visited, handler := Connecting, {Connecting}, Idle;
    }

    /** Refuses any move that is not listed. */
    method Transition(to: ConnState) returns (ok: bool)
      modifies this`state, this`visited
      ensures ok == (to in ValidTransitions(old(state)))
      ensures View() == Transitioned(old(View()), to)
    {
      var allowed := ValidTransitions(state);
      for i := 0 to |allowed|
        invariant to !in allowed[..i] && state == old(state) && visited == old(visited)
      {
        assert allowed[..i + 1] == allowed[..i] + [allowed[i]];
        if allowed[i] == to {
          state := to;
          visited := visited + {to};
          return true;
        }
      }
      assert allowed[..|allowed|] == allowed;
      ok := false;
    }

    method Initialize()
      modifies this`state, this`visited
      ensures View() == Initialized(old(View()))
    {
      if requiresAuth {
        var _ := Transition(Authenticating);
      }
      var _ := Transition(Registering);
    }

    method BeginRegister(r: RegisterRequest) returns (ok: bool)
      requires handler == Idle
      modifies this`handler
      ensures ok == (old(state) == Registering) && View() == RegisterBegun(old(View()), r)
    {
      ok := state == Registering;
      if ok {
        handler := InRegister(r);
      }
    }

    /** Splits the offered tools into the valid ones and the names and reasons of the others. */
    method Partition(tools: seq<Tool>) returns (registered: seq<Tool>, rejected: seq<Rejected>)
      ensures registered == ValidOnes(tools) && rejected == RejectedOnes(tools)
    {
      registered, rejected := [], [];
      for i := 0 to |tools|
        invariant registered == ValidOnes(tools[..i]) && rejected == RejectedOnes(tools[..i])
      {
        assert tools[..i + 1][..i] == tools[..i];
        var reason := ValidateTool(tools[i]);
        if reason.Some? {
          rejected := rejected + [Rejected(tools[i].name, reason.value)];
          continue;
        }
        registered := registered + [tools[i]];
      }
      assert tools[..|tools|] == tools;
    }

    /** None is the version-mismatch error; `maxAttachment` is the configured limit, 0 or less for none. */
    method EndRegister(maxAttachment: int) returns (answer: Option<RegisterAnswer>)
      requires handler.InRegister?
      modifies this, capabilities
      ensures View() == RegisterDone(old(View()))
      ensures var r := old(handler.register);
              answer == if r.version != VERSION then None
                        else Some(RegisterAnswer(ValidOnes(r.tools), RejectedOnes(r.tools), "1", 10485760,
                                                 if maxAttachment <= 0 then 5242880 else maxAttachment))
    {
      var r := handler.register;
      handler := Idle;
      if r.version != VERSION {
        var _ := Transition(Failed);
        return None;
      }
      var registered, rejected := Partition(r.tools);
      capabilities.negotiatedVersion := r.version;
      capabilities.ReplaceTools(registered);
      capabilities.project := r.project;
      var _ := Transition(Ready);
      var limit := maxAttachment;
      if limit <= 0 {
        limit := DEFAULT_ATTACHMENT;
      }
      answer := Some(RegisterAnswer(registered, rejected, VERSION, MAX_FRAME, limit));
    }

    /** The first added tool that is not valid refuses the whole update. */
    method EndUpdate(now: int) returns (answer: UpdateAnswer)
      requires handler.InUpdate?
      modifies this, capabilities
      ensures View() == UpdateDone(old(View()))
      ensures answer.Updated? <==> AllValid(old(handler.update.added))
      ensures var u := old(handler.update);
              match answer
              case Updated(added, removed, at) => added == |u.added| && removed == |u.removed| && at == now
              case Refused(tool) =>
                exists i :: 0 <= i < |u.added| && AllValid(u.added[..i]) && !IsValid(u.added[i])
                            && tool == Rejected(u.added[i].name, ValidateTool(u.added[i]).value)
    {
      var u := handler.update;
      handler := Idle;
      for i := 0 to |u.added|
        invariant AllValid(u.added[..i]) && View() == old(View()).(handler := Idle)
      {
        assert u.added[..i + 1] == u.added[..i] + [u.added[i]];
        var reason := ValidateTool(u.added[i]);
        if reason.Some? {
          assert u.added[i] in u.added;
          return Refused(Rejected(u.added[i].name, reason.value));
        }
      }
      assert u.added[..|u.added|] == u.added;
      var addedCount, removedCount := capabilities.ApplyUpdate(u.added, u.removed);
      answer := Updated(addedCount, removedCount, now);
    }
  }
}
