/**
 The harness-side tool dispatcher: duplicate rejection over a bounded ring, plan-mode interception,
 and one posted result per call (internal/harness/tool_dispatcher.go).
 */
module Dispatcher {
  import opened Wrappers

  const SEEN_CAPACITY: nat := 1024

  datatype Risk = ReadOnly | Write | Execute | Destructive

  datatype Mode = Plan | Build | Auto

  datatype Call = Call(id: string, tool: string, input: string)

  datatype ExecResult = Ran(status: string, output: string) | ExecFailed(message: string)

  /** What the world answers while one call is handled: registry, mode reader, executor. */
  datatype World = World(risk: Option<Risk>, mode: Option<Mode>, exec: ExecResult)

  datatype Outcome = Duplicate | UnknownTool | Queued | Executed(result: ExecResult)

  datatype Posted = Posted(callId: string, outcome: Outcome)

  predicate PlanShouldIntercept(mode: Option<Mode>, risk: Risk) {
    mode == Some(Plan) && risk != ReadOnly
  }

  // ---------------------------------------------------------------- one call, on values

  datatype State = State(seen: set<string>, ring: seq<string>, intercepted: nat, executed: nat, plan: seq<Call>,
                         posted: seq<Posted>)

  predicate Accepts(st: State, id: string) {
    id == "" || id !in st.seen
  }

  function Remember(st: State, id: string): State {
    if id == "" then st
    else if |st.ring| + 1 > SEEN_CAPACITY then
      var ring := st.ring + [id];
      st.(seen := st.seen + {id} - {ring[0]}, ring := ring[1..])
    else st.(seen := st.seen + {id}, ring := st.ring + [id])
  }

  function Resolve(call: Call, w: World): Outcome {
    if w.risk == None then UnknownTool
    else if PlanShouldIntercept(w.mode, w.risk.value) then Queued
    else Executed(w.exec)
  }

  function OutcomeOf(st: State, call: Call, w: World): Outcome {
    if Accepts(st, call.id) then Resolve(call, w) else Duplicate
  }

  function Handled(st: State, call: Call, w: World): State {
    var outcome := OutcomeOf(st, call, w);
    var kept := if Accepts(st, call.id) then Remember(st, call.id) else st;
    kept.(intercepted := st.intercepted + if outcome == Queued then 1 else 0,
    executed := st.executed + if outcome.Executed? then 1 else 0,
    plan := if outcome == Queued then st.plan + [call] else st.plan,
    posted := st.posted + [Posted(call.id, outcome)])
  }

  // ---------------------------------------------------------------- the dispatcher

  class ToolDispatcher {
    var seen: set<string>
    var seenRing: seq<string>
    var interceptedCount: nat
    var executedCount: nat
    var plan: seq<Call>       // the plan accumulator
    var posted: seq<Posted>   // results sent to the server

    function View(): State
      reads this
    {
      State(seen, seenRing, interceptedCount, executedCount, plan, posted)
    }

    constructor ()
      ensures View() == State({}, [], 0, 0, [], [])
    {
      seen, seenRing, interceptedCount, executedCount, plan, posted := {}, [], 0, 0, [], [];
    }

    method Post(id: string, outcome: Outcome)
      modifies this`posted
      ensures posted == old(posted) + [Posted(id, outcome)]
    {
      posted := posted + [Posted(id, outcome)];
    }

    method HandleToolCall(call: Call, w: World)
      modifies this
      ensures View() == Handled(old(View()), call, w)
    {
      if call.id != "" {
        if call.id in seen {
          Post(call.id, Duplicate);
          return;
        }
        seen := seen + {call.id};
        seenRing := seenRing + [call.id];
        if |seenRing| > SEEN_CAPACITY {
          var evict := seenRing[0];
          seenRing := seenRing[1..];
          seen := seen - {evict};
        }
      }
      if w.risk == None {
        Post(call.id, UnknownTool);
        return;
      }
      if PlanShouldIntercept(w.mode, w.risk.value) {
        interceptedCount := interceptedCount + 1;
        plan := plan + [call];
        Post(call.id, Queued);
        return;
      }
      executedCount := executedCount + 1;
      Post(call.id, Executed(w.exec));
    }
  }

  // ---------------------------------------------------------------- runs

  datatype Request = Request(call: Call, world: World)

  function Run(st: State, rs: seq<Request>): State {
    if rs == [] then st
    else
      var last := rs[|rs| - 1];
      Handled(Run(st, rs[..|rs| - 1]), last.call, last.world)
  }

  /** The non-empty ids that pass the duplicate check, in order. */
  function Accepted(st: State, rs: seq<Request>): seq<string> {
    if rs == [] then []
    else
      var last := rs[|rs| - 1].call;
      Accepted(st, rs[..|rs| - 1])
      + if last.id != "" && Accepts(Run(st, rs[..|rs| - 1]), last.id) then [last.id] else []
  }

  ghost predicate Valid(st: State) {
    |st.ring| <= SEEN_CAPACITY
    && (forall i, j :: 0 <= i < j < |st.ring| ==> st.ring[i] != st.ring[j])
    && st.seen == set id | id in st.ring
  }

  /** The last `n` entries, or all of them. */
  function LastOf(h: seq<string>, n: nat): seq<string> {
    if |h| <= n then h else h[|h| - n..]
  }

  /** Equal entries are more than `n` places apart. */
  ghost predicate Windowed(h: seq<string>, n: nat) {
    forall i, j :: 0 <= i < j < |h| && j - i <= n ==> h[i] != h[j]
  }

  lemma RememberKeepsValid(st: State, id: string)
    requires Valid(st) && id != "" && Accepts(st, id)
    ensures Valid(Remember(st, id)) && Remember(st, id).ring == LastOf(st.ring + [id], SEEN_CAPACITY)
  {
    var next := Remember(st, id);
    var all := st.ring + [id];
    assert forall k :: k in all <==> k in st.ring || k == id;
    if |st.ring| + 1 > SEEN_CAPACITY {
      assert all == [all[0]] + all[1..];
      assert all[0] !in all[1..];
    }
  }

  /**
   The ring is a window on the history of accepted ids: the entries it began with, then those
   accepted since. No id recurs in that history within 1024 places.
   */
  lemma {:induction false} RingIsWindow(st: State, rs: seq<Request>)
    requires Valid(st)
    ensures Valid(Run(st, rs))
    ensures Run(st, rs).ring == LastOf(st.ring + Accepted(st, rs), SEEN_CAPACITY)
    ensures Windowed(st.ring + Accepted(st, rs), SEEN_CAPACITY)
  {
    if rs == [] {
      assert st.ring + [] == st.ring;
    } else {
      var init, last := rs[..|rs| - 1], rs[|rs| - 1].call;
      RingIsWindow(st, init);
      var before, h := Run(st, init), st.ring + Accepted(st, init);
      if last.id != "" && Accepts(before, last.id) {
        RememberKeepsValid(before, last.id);
        assert st.ring + Accepted(st, rs) == h + [last.id];
        WindowSlides(h, last.id, before.ring);
      } else {
        assert st.ring + Accepted(st, rs) == h;
      }
    }
  }

  lemma WindowSlides(h: seq<string>, id: string, ring: seq<string>)
    requires ring == LastOf(h, SEEN_CAPACITY) && id !in ring && Windowed(h, SEEN_CAPACITY)
    ensures Windowed(h + [id], SEEN_CAPACITY)
    ensures LastOf(ring + [id], SEEN_CAPACITY) == LastOf(h + [id], SEEN_CAPACITY)
  {
    forall i | 0 <= i < |h| && |h| - i <= SEEN_CAPACITY
      ensures h[i] != id
    {
      assert h[i] == ring[i - (|h| - |ring|)];
    }
  }

  /** A call passes the duplicate check exactly when its id is empty or not among the last 1024 accepted. */
  lemma AcceptedExactly(st: State, rs: seq<Request>, id: string)
    requires Valid(st)
    ensures Accepts(Run(st, rs), id) <==> id == "" || id !in LastOf(st.ring + Accepted(st, rs), SEEN_CAPACITY)
  {
    RingIsWindow(st, rs);
  }

  lemma AcceptedOfSnoc(st: State, rs: seq<Request>, r: Request)
    ensures Accepted(st, rs + [r]) ==
            Accepted(st, rs) + if r.call.id != "" && Accepts(Run(st, rs), r.call.id) then [r.call.id] else []
  {
    assert (rs + [r])[..|rs|] == rs;
  }

  predicate LastIs(s: seq<string>, x: string) {
    s != [] && s[|s| - 1] == x
  }

  /** One more call, either never seen or the one accepted last. */
  lemma NewOrRepeated(st: State, rs: seq<Request>, r: Request)
    requires Valid(st) && r.call.id != ""
    requires LastIs(Accepted(st, rs), r.call.id) || (r.call.id !in st.seen && r.call.id !in Accepted(st, rs))
    ensures Accepted(st, rs + [r]) ==
            if LastIs(Accepted(st, rs), r.call.id) then Accepted(st, rs) else Accepted(st, rs) + [r.call.id]
  {
    AcceptedOfSnoc(st, rs, r);
    AcceptedExactly(st, rs, r.call.id);
    var window := LastOf(st.ring + Accepted(st, rs), SEEN_CAPACITY);
    if LastIs(Accepted(st, rs), r.call.id) {
      assert window[|window| - 1] == r.call.id;
    } else {
      assert r.call.id !in st.ring + Accepted(st, rs);
    }
  }

  /** Between two acceptances of one id at least 1024 others are accepted, all different. */
  lemma AcceptancesApart(st: State, rs: seq<Request>, i: nat, j: nat)
    requires Valid(st) && i < j < |Accepted(st, rs)| && Accepted(st, rs)[i] == Accepted(st, rs)[j]
    ensures j - i > 1024
    ensures var between := Accepted(st, rs)[i + 1..i + 1 + 1024];
            Accepted(st, rs)[i] !in between && Windowed(between, 1024)
  {
    RingIsWindow(st, rs);
    WindowedTail(st.ring, Accepted(st, rs), SEEN_CAPACITY);
  }

  lemma WindowedTail(front: seq<string>, back: seq<string>, n: nat)
    requires Windowed(front + back, n)
    ensures Windowed(back, n)
  {
    forall i, j | 0 <= i < j < |back| && j - i <= n
      ensures back[i] != back[j]
    {
      assert (front + back)[|front| + i] == back[i] && (front + back)[|front| + j] == back[j];
    }
  }

  function PostedIds(posted: seq<Posted>): seq<string> {
    seq(|posted|, i requires 0 <= i < |posted| => posted[i].callId)
  }

  function RequestIds(rs: seq<Request>): seq<string> {
    seq(|rs|, i requires 0 <= i < |rs| => rs[i].call.id)
  }

  function CountOutcomes(posted: seq<Posted>, want: Outcome -> bool): nat {
    if posted == [] then 0
    else CountOutcomes(posted[..|posted| - 1], want) + if want(posted[|posted| - 1].outcome) then 1 else 0
  }

  /** Every call posts exactly one result, under its own id; the counters count the posted outcomes. */
  lemma {:induction false} OneResultPerCall(st: State, rs: seq<Request>)
    ensures var end := Run(st, rs);
            PostedIds(end.posted) == PostedIds(st.posted) + RequestIds(rs)
            && st.posted <= end.posted
            && end.executed - st.executed ==
               CountOutcomes(end.posted, (o: Outcome) => o.Executed?)
               - CountOutcomes(st.posted, (o: Outcome) => o.Executed?)
            && |end.plan| - |st.plan| == end.intercepted - st.intercepted
  {
    if rs != [] {
      var init := rs[..|rs| - 1];
      OneResultPerCall(st, init);
      var before, end := Run(st, init), Run(st, rs);
      assert end.posted[..|end.posted| - 1] == before.posted;
      assert RequestIds(rs) == RequestIds(init) + [rs[|rs| - 1].call.id];
      assert PostedIds(end.posted) == PostedIds(before.posted) + [rs[|rs| - 1].call.id];
    }
  }

  /** What one call is answered, given that it is a duplicate or not. */
  predicate AnswersCall(o: Outcome, r: Request, duplicate: bool) {
    if duplicate then o == Duplicate
    else match r.world.risk
      case None => o == UnknownTool
      case Some(risk) =>
        if r.world.mode == Some(Plan) && risk != ReadOnly then o == Queued else o == Executed(r.world.exec)
  }

  lemma LastAnswer(st: State, r: Request)
    ensures var posted := Handled(st, r.call, r.world).posted;
            |posted| == |st.posted| + 1 && st.posted <= posted && posted[|st.posted|].callId == r.call.id
            && AnswersCall(posted[|st.posted|].outcome, r, r.call.id != "" && r.call.id in st.seen)
  {
  }

  /**
   Every answer over every run: a call with an identifier among the last 1024 accepted is a
   duplicate; any other is refused when its tool is unknown, held for the plan when plan mode meets a
   tool that is not read-only, and otherwise run, with the tool's own result.
   */
  lemma {:induction false} AnswersExactly(st: State, rs: seq<Request>, i: nat)
    requires Valid(st) && i < |rs|
    ensures var posted, history := Run(st, rs).posted, st.ring + Accepted(st, rs[..i]);
            |posted| == |st.posted| + |rs| && posted[|st.posted| + i].callId == rs[i].call.id
            && AnswersCall(posted[|st.posted| + i].outcome, rs[i],
                           rs[i].call.id != "" && rs[i].call.id in LastOf(history, 1024))
  {
    var init, last := rs[..|rs| - 1], rs[|rs| - 1];
    LastAnswer(Run(st, init), last);
    if i < |init| {
      AnswersExactly(st, init, i);
      assert init[..i] == rs[..i];
    } else {
      OneResultPerCall(st, init);
      assert |RequestIds(init)| == |init| && rs[..i] == init;
      assert |PostedIds(Run(st, init).posted)| == |Run(st, init).posted|;
      RingIsWindow(st, init);
    }
  }

  // ---------------------------------------------------------------- plan mode

  /** The calls of a run that are held for the plan, in order. */
  function Held(st: State, rs: seq<Request>): seq<Call> {
    if rs == [] then []
    else
      var front, before, r := Held(st, rs[..|rs| - 1]), Run(st, rs[..|rs| - 1]), rs[|rs| - 1];
      if Accepts(before, r.call.id) && r.world.risk.Some? && PlanShouldIntercept(r.world.mode, r.world.risk.value) then
        front + [r.call]
      else front
  }

  /** The plan gains exactly the calls held back, each accepted once and in order. */
  lemma {:induction false} PlanGainsHeld(st: State, rs: seq<Request>)
    ensures Run(st, rs).plan == st.plan + Held(st, rs)
  {
    if rs == [] {
      assert st.plan + [] == st.plan;
    } else {
      var init, r := rs[..|rs| - 1], rs[|rs| - 1];
      PlanGainsHeld(st, init);
      HeldStep(Run(st, init), r);
      assert (st.plan + Held(st, init)) + [r.call] == st.plan + (Held(st, init) + [r.call]);
    }
  }

  lemma HeldStep(st: State, r: Request)
    ensures var holds := Accepts(st, r.call.id) && r.world.risk.Some?
                         && PlanShouldIntercept(r.world.mode, r.world.risk.value);
            Handled(st, r.call, r.world).plan == if holds then st.plan + [r.call] else st.plan
  {
  }

  lemma PostedStep(st: State, r: Request)
    ensures Handled(st, r.call, r.world).posted == st.posted + [Posted(r.call.id, OutcomeOf(st, r.call, r.world))]
    ensures r.world.mode == Some(Plan) && OutcomeOf(st, r.call, r.world).Executed? ==> r.world.risk == Some(ReadOnly)
  {
  }

  /** Throughout plan mode nothing but read-only tools runs. */
  lemma {:induction false} PlanModeOnlyReads(st: State, rs: seq<Request>)
    requires forall r :: r in rs ==> r.world.mode == Some(Plan)
    ensures |Run(st, rs).posted| == |st.posted| + |rs|
    ensures forall i :: 0 <= i < |rs| && Run(st, rs).posted[|st.posted| + i].outcome.Executed? ==>
                          rs[i].world.risk == Some(ReadOnly)
  {
    if rs != [] {
      var init, last := rs[..|rs| - 1], rs[|rs| - 1];
      assert last in rs && forall r :: r in init ==> r in rs;
      PlanModeOnlyReads(st, init);
      PostedStep(Run(st, init), last);
    }
  }
}
