/**
 JSON-RPC 2.0 call correlation (sections 4 and 5) in the two clients, internal/harness/client.go and
 mcp_client.go. Both register a one-slot channel under the request's identifier before writing, and a
 single reader takes the channel out of the pending table, then sends. The steps below are the
 atomic sections of callers and reader; any interleaving of them is a run. `K` is the type of the
 table's keys and `keyOf` gives the key of the n-th request.
 */
module Correlation {
  import opened Wrappers

  datatype Response<K> = Response(key: K, payload: string)

  datatype Stage<K> = Begun | Waiting | Failed | Got(response: Response<K>)

  /** A call with its identifier and channel: what the slot holds, everything ever sent, and whether it was closed. */
  datatype Call<K> = Call(id: nat, stage: Stage<K>, slot: seq<Response<K>>, sent: seq<Response<K>>, closed: bool)

  datatype InFlight<K> = InFlight(call: nat, response: Response<K>)

  /** The client: `pending` maps keys to calls; `inFlight` is what the reader took out and must send. */
  datatype Client<K> = Client(nextId: nat, pending: map<K, nat>, calls: seq<Call<K>>, inFlight: Option<InFlight<K>>,
                              reading: bool)

  function Start<K>(): Client<K> {
    Client(0, map[], [], None, true)
  }

  datatype Step<K> =
    | Begin                          // take the next identifier
    | Register(call: nat)            // put the channel into the table
    | GiveUp(call: nat)              // cancelled, not written, or the connection is done: take it out again
    | Take(response: Response<K>)    // the reader looks a response up and deletes the entry
    | Send                           // the reader sends what it took
    | Receive(call: nat)             // the caller takes the response out of its channel
    | ExitReader                     // end of input
    | Sweep                          // after the reader is done: close every pending channel
    | SeeClosed(call: nat)           // the caller finds its channel closed

  predicate InStage<K(==)>(s: Client<K>, call: nat, stage: Stage<K>) {
    call < |s.calls| && s.calls[call].stage == stage
  }

  function Begins<K>(s: Client<K>): Client<K> {
    s.(nextId := s.nextId + 1, calls := s.calls + [Call(s.nextId + 1, Begun, [], [], false)])
  }

  function Registers<K(==)>(s: Client<K>, keyOf: nat -> K, call: nat): Client<K> {
    if !InStage(s, call, Begun) then s
    else s.(pending := s.pending[keyOf(s.calls[call].id) := call],
         calls := s.calls[call := s.calls[call].(stage := Waiting)])
  }

  function GivesUp<K(==)>(s: Client<K>, keyOf: nat -> K, call: nat): Client<K> {
    if InStage(s, call, Begun) then s.(calls := s.calls[call := s.calls[call].(stage := Failed)])
    else if InStage(s, call, Waiting) then
      s.(pending := s.pending - {keyOf(s.calls[call].id)}, calls := s.calls[call := s.calls[call].(stage := Failed)])
    else s
  }

  function Takes<K>(s: Client<K>, r: Response<K>): Client<K> {
    if !s.reading || s.inFlight.Some? || r.key !in s.pending then s
    else s.(pending := s.pending - {r.key}, inFlight := Some(InFlight(s.pending[r.key], r)))
  }

  function Sends<K>(s: Client<K>): Client<K> {
    if s.inFlight.None? || s.inFlight.value.call >= |s.calls| then s
    else
      var f, c := s.inFlight.value, s.calls[s.inFlight.value.call];
      s.(inFlight := None,
      calls := s.calls[f.call := c.(slot := c.slot + [f.response], sent := c.sent + [f.response])])
  }

  function Receives<K(==)>(s: Client<K>, call: nat): Client<K> {
    if !InStage(s, call, Waiting) || s.calls[call].slot == [] then s
    else
      var c := s.calls[call];
      s.(calls := s.calls[call := c.(stage := Got(c.slot[0]), slot := c.slot[1..])])
  }

  function Exits<K>(s: Client<K>): Client<K> {
    if s.inFlight.Some? then s else s.(reading := false)
  }

  /** Closing waits for the reader, then closes and removes everything that is still pending. */
  function Sweeps<K>(s: Client<K>): Client<K> {
    if s.reading then s
    else s.(pending := map[],
         calls := seq(|s.calls|, i requires 0 <= i < |s.calls| =>
           if i in s.pending.Values then s.calls[i].(closed := true) else s.calls[i]))
  }

  function SeesClosed<K(==)>(s: Client<K>, call: nat): Client<K> {
    if InStage(s, call, Waiting) && s.calls[call].closed && s.calls[call].slot == [] then
      s.(calls := s.calls[call := s.calls[call].(stage := Failed)])
    else s
  }

  function Stepped<K(==)>(s: Client<K>, keyOf: nat -> K, step: Step<K>): Client<K> {
    match step
    case Begin => Begins(s)
    case Register(call) => Registers(s, keyOf, call)
    case GiveUp(call) => GivesUp(s, keyOf, call)
    case Take(r) => Takes(s, r)
    case Send => Sends(s)
    case Receive(call) => Receives(s, call)
    case ExitReader => Exits(s)
    case Sweep => Sweeps(s)
    case SeeClosed(call) => SeesClosed(s, call)
  }

  function Ran<K(==)>(keyOf: nat -> K, steps: seq<Step<K>>): Client<K> {
    if steps == [] then Start() else Stepped(Ran(keyOf, steps[..|steps| - 1]), keyOf, steps[|steps| - 1])
  }

  // ---------------------------------------------------------------- the mutable client

  /** The client's shared state. Each method is one atomic section of `Call`, `readLoop` or `Close`. */
  class Connection<K(==)> {
    const keyOf: nat -> K
    var nextId: nat
    var pending: map<K, nat>
    var calls: seq<Call<K>>
    var inFlight: Option<InFlight<K>>
    var reading: bool

    function View(): Client<K>
      reads this
    {
      Client(nextId, pending, calls, inFlight, reading)
    }

    constructor (keyOf: nat -> K)
      ensures this.keyOf == keyOf && View() == Start()
    {
      this.keyOf := keyOf;
      nextId, pending, calls, inFlight, reading := 0, map[], [], None, true;
    }

    method NextRequestId() returns (call: nat)
      requires |calls| == nextId
      modifies this
      ensures call == old(nextId) && View() == Begins(old(View()))
    {
      call := nextId;
      nextId := nextId + 1;
      calls := calls + [Call(nextId, Begun, [], [], false)];
    }

    method AddPending(call: nat)
      requires InStage(View(), call, Begun)
      modifies this
      ensures View() == Registers(old(View()), keyOf, call)
    {
      calls := calls[call := calls[call].(stage := Waiting)];
      pending := pending[keyOf(calls[call].id) := call];
    }

    method ReleasePending(call: nat)
      requires InStage(View(), call, Waiting)
      modifies this
      ensures View() == GivesUp(old(View()), keyOf, call)
    {
      pending := pending - {keyOf(calls[call].id)};
      calls := calls[call := calls[call].(stage := Failed)];
    }

    /** The reader's look-up; a response nobody waits for is dropped. */
    method TakePending(r: Response<K>)
      requires reading && inFlight.None?
      modifies this
      ensures View() == Takes(old(View()), r)
    {
      if r.key in pending {
        var call := pending[r.key];
        pending := pending - {r.key};
        inFlight := Some(InFlight(call, r));
      }
    }

    /** The reader's send, which needs a free slot and an open channel. */
    method Deliver()
      requires inFlight.Some? && inFlight.value.call < |calls|
      requires calls[inFlight.value.call].slot == [] && !calls[inFlight.value.call].closed
      modifies this
      ensures View() == Sends(old(View()))
    {
      var f := inFlight.value;
      var c := calls[f.call];
      calls := calls[f.call := c.(slot := c.slot + [f.response], sent := c.sent + [f.response])];
      inFlight := None;
    }

    /** Closes the channel of every pending call. */
    method FailPending()
      requires !reading
      modifies this
      ensures View() == Sweeps(old(View()))
    {
      ghost var before := pending;
      ghost var start := calls;
      while pending != map[]
        invariant |calls| == |start| && nextId == old(nextId) && inFlight == old(inFlight) && reading == old(reading)
        invariant pending.Keys <= before.Keys && forall k :: k in pending ==> pending[k] == before[k]
        invariant forall i :: 0 <= i < |calls| ==>
                                calls[i] == start[i] || (i in before.Values && calls[i] == start[i].(closed := true))
        invariant forall k :: k in before && k !in pending && before[k] < |calls| ==>
                                calls[before[k]] == start[before[k]].(closed := true)
        decreases |pending|
      {
        var k :| k in pending;
        if pending[k] < |calls| {
          calls := calls[pending[k] := calls[pending[k]].(closed := true)];
        }
        assert (pending - {k}).Keys == pending.Keys - {k};
        pending := pending - {k};
      }
      forall i | 0 <= i < |calls| && i in before.Values ensures calls[i] == start[i].(closed := true) {
        var k :| k in before && before[k] == i;
      }
      assert calls == Sweeps(old(View())).calls;
    }
  }
}
