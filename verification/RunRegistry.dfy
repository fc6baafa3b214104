/** The registry of active runs and of the turns they serve (internal/runtime/run_registry.go). */
module RunRegistry {
  import opened Wrappers

  const MAX_TRACKED_RUNS := 4096

  datatype Run = Run(id: string, turnId: string, sessionId: string, connectionId: string, cancellable: bool)

  /** Both maps as values. */
  datatype Maps = Maps(byRun: map<string, Run>, byTurn: map<string, string>)

  const EMPTY := Maps(map[], map[])

  /** A new registration of a run under another turn forgets the turn it had. */
  function ForgetOldTurn(s: Maps, runId: string, turnId: string): Maps {
    if runId in s.byRun && s.byRun[runId].turnId != "" && s.byRun[runId].turnId != turnId then
      s.(byTurn := s.byTurn - {s.byRun[runId].turnId})
    else s
  }

  function Evicted(s: Maps, victim: Option<string>): Maps {
    if victim.None? || victim.value !in s.byRun then s
    else Maps(s.byRun - {victim.value},
              if s.byRun[victim.value].turnId == "" then s.byTurn else s.byTurn - {s.byRun[victim.value].turnId})
  }

  function Put(s: Maps, r: Run): Maps {
    Maps(s.byRun[r.id := r], if r.turnId == "" then s.byTurn else s.byTurn[r.turnId := r.id])
  }

  /** Whether a registration may evict this run: exactly one, and only for a new run when full. */
  predicate MayEvict(s: Maps, runId: string, victim: Option<string>) {
    if runId !in s.byRun && |s.byRun| >= MAX_TRACKED_RUNS then victim.Some? && victim.value in s.byRun else victim.None?
  }

  function Registered(s: Maps, r: Run, victim: Option<string>): Maps {
    Put(Evicted(ForgetOldTurn(s, r.id, r.turnId), victim), r)
  }

  function Cancelled(s: Maps, runId: string): Maps {
    if runId in s.byRun && s.byRun[runId].cancellable then Evicted(s, Some(runId)) else s
  }

  function Deregistered(s: Maps, runId: string, turnId: string): Maps {
    Maps(s.byRun - {runId}, if turnId == "" then s.byTurn else s.byTurn - {turnId})
  }

  function RunForTurn(s: Maps, turnId: string): string {
    if turnId in s.byTurn then s.byTurn[turnId] else ""
  }

  class Registry {
    var byRunID: map<string, Run>
    var byTurnID: map<string, string>

    function View(): Maps
      reads this
    {
      Maps(byRunID, byTurnID)
    }

    constructor ()
      ensures View() == EMPTY
    {
      byRunID, byTurnID := map[], map[];
    }

    /** Evicts an arbitrary run when a new one would exceed the bound. */
    method Register(r: Run) returns (ghost victim: Option<string>)
      modifies this
      ensures MayEvict(old(View()), r.id, victim) && View() == Registered(old(View()), r, victim)
    {
      victim := None;
      if r.id in byRunID && byRunID[r.id].turnId != "" && byRunID[r.id].turnId != r.turnId {
        byTurnID := byTurnID - {byRunID[r.id].turnId};
      }
      if r.id !in byRunID && |byRunID| >= MAX_TRACKED_RUNS {
        assert byRunID.Keys != {};
        var oldRunID :| oldRunID in byRunID.Keys;
        var oldRun := byRunID[oldRunID];
        byRunID := byRunID - {oldRunID};
        if oldRun.turnId != "" {
          byTurnID := byTurnID - {oldRun.turnId};
        }
        victim := Some(oldRunID);
      }
      byRunID := byRunID[r.id := r];
      if r.turnId != "" {
        byTurnID := byTurnID[r.turnId := r.id];
      }
    }

    /** True when the run was there and could be cancelled; its cancel function is then called. */
    method Cancel(runId: string) returns (ok: bool)
      modifies this
      ensures ok == (runId in old(byRunID) && old(byRunID)[runId].cancellable)
      ensures View() == Cancelled(old(View()), runId)
    {
      if runId !in byRunID || !byRunID[runId].cancellable {
        return false;
      }
      var r := byRunID[runId];
      byRunID := byRunID - {runId};
      if r.turnId != "" {
        byTurnID := byTurnID - {r.turnId};
      }
      ok := true;
    }

    method RunIDForTurn(turnId: string) returns (runId: string)
      ensures runId == RunForTurn(View(), turnId)
    {
      runId := if turnId in byTurnID then byTurnID[turnId] else "";
    }

    method Deregister(runId: string, turnId: string)
      modifies this
      ensures View() == Deregistered(old(View()), runId, turnId)
    {
      byRunID := byRunID - {runId};
      if turnId != "" {
        byTurnID := byTurnID - {turnId};
      }
    }
  }

  // ---------------------------------------------------------------- the inverse

  /** The turn map is exactly the inverse of the runs' non-empty turns. */
  ghost predicate Inverse(s: Maps) {
    (forall id :: id in s.byRun ==> s.byRun[id].id == id)
    && (forall turn :: turn in s.byTurn ==>
                         turn != "" && s.byTurn[turn] in s.byRun && s.byRun[s.byTurn[turn]].turnId == turn)
    && (forall id :: id in s.byRun && s.byRun[id].turnId != "" ==>
                       s.byRun[id].turnId in s.byTurn && s.byTurn[s.byRun[id].turnId] == id)
  }

  lemma EvictedStaysInverse(s: Maps, victim: Option<string>)
    requires Inverse(s)
    ensures Inverse(Evicted(s, victim))
  {
  }

  /** No other run that stays registered serves the turn. */
  ghost predicate TurnIsFree(s: Maps, r: Run, victim: Option<string>) {
    r.turnId == "" || forall id :: id in s.byRun && id != r.id && victim != Some(id) ==> s.byRun[id].turnId != r.turnId
  }

  /** Registering keeps the inverse exactly when no other run that stays serves the same turn. */
  lemma RegisterIsExact(s: Maps, r: Run, victim: Option<string>)
    requires Inverse(s) && MayEvict(s, r.id, victim)
    ensures Inverse(Registered(s, r, victim)) <==> TurnIsFree(s, r, victim)
  {
    var next := Registered(s, r, victim);
    if !TurnIsFree(s, r, victim) {
      var id :| id in s.byRun && id != r.id && victim != Some(id) && s.byRun[id].turnId == r.turnId;
      assert next.byRun[id].turnId == r.turnId && next.byTurn[r.turnId] == r.id;
    } else {
      RegisterKeeps(s, r, victim);
    }
  }

  lemma RegisterKeeps(s: Maps, r: Run, victim: Option<string>)
    requires Inverse(s) && MayEvict(s, r.id, victim) && TurnIsFree(s, r, victim)
    ensures Inverse(Registered(s, r, victim))
  {
    EvictedStaysInverse(s, victim);
  }

  /** Cancelling keeps it always. */
  lemma CancelKeeps(s: Maps, runId: string)
    requires Inverse(s)
    ensures Inverse(Cancelled(s, runId))
  {
    EvictedStaysInverse(s, Some(runId));
  }

  /** The pair of a deregistration belongs together: the run's own turn, or no turn in use. */
  predicate Matches(s: Maps, runId: string, turnId: string) {
    if runId in s.byRun && s.byRun[runId].turnId != "" then s.byRun[runId].turnId == turnId
    else turnId !in s.byTurn
  }

  /** Deregistering keeps it exactly when the pair belongs together. */
  lemma DeregisterIsExact(s: Maps, runId: string, turnId: string)
    requires Inverse(s)
    ensures Inverse(Deregistered(s, runId, turnId)) <==> Matches(s, runId, turnId)
  {
    var next := Deregistered(s, runId, turnId);
    if !Matches(s, runId, turnId) {
      if runId in s.byRun && s.byRun[runId].turnId != "" {
        assert s.byRun[runId].turnId in next.byTurn;
      } else {
        assert s.byTurn[turnId] in next.byRun;
      }
    }
  }

  // ---------------------------------------------------------------- the bound

  lemma {:induction false} InjectiveIsSmaller(m: map<string, string>, into: set<string>)
    requires forall k :: k in m ==> m[k] in into
    requires forall j, k :: j in m && k in m && j != k ==> m[j] != m[k]
    ensures |m| <= |into|
    decreases |m|
  {
    if m != map[] {
      var k :| k in m;
      var rest := m - {k};
      assert |rest| == |m| - 1 by {
        assert rest.Keys == m.Keys - {k};
      }
      InjectiveIsSmaller(rest, into - {m[k]});
    }
  }

  /** No more turns than runs. */
  lemma TurnsAreFewer(s: Maps)
    requires Inverse(s)
    ensures |s.byTurn| <= |s.byRun|
  {
    InjectiveIsSmaller(s.byTurn, s.byRun.Keys);
    assert |s.byRun.Keys| == |s.byRun|;
  }

  lemma RegisterStaysBounded(s: Maps, r: Run, victim: Option<string>)
    requires |s.byRun| <= MAX_TRACKED_RUNS && MayEvict(s, r.id, victim)
    ensures |Registered(s, r, victim).byRun| <= MAX_TRACKED_RUNS
  {
    var evicted := Evicted(ForgetOldTurn(s, r.id, r.turnId), victim);
    if victim.Some? {
      assert evicted.byRun.Keys == s.byRun.Keys - {victim.value};
      assert |evicted.byRun.Keys| == |s.byRun.Keys| - 1;
    }
    assert Put(evicted, r).byRun.Keys == evicted.byRun.Keys + {r.id};
    if r.id in s.byRun {
      assert evicted.byRun.Keys + {r.id} == s.byRun.Keys;
    }
  }

  // ---------------------------------------------------------------- every run

  datatype Step =
    | Register(run: Run, victim: Option<string>)
    | Cancel(runId: string)
    | Deregister(gone: string, turnId: string)

  function Stepped(s: Maps, step: Step): Maps {
    match step
    case Register(run, victim) => Registered(s, run, victim)
    case Cancel(runId) => Cancelled(s, runId)
    case Deregister(runId, turnId) => Deregistered(s, runId, turnId)
  }

  /** Eviction follows the bound; turns are not shared and deregistrations name a run's own turn. */
  ghost predicate Allowed(s: Maps, step: Step) {
    match step
    case Register(run, victim) => MayEvict(s, run.id, victim) && TurnIsFree(s, run, victim)
    case Cancel(_) => true
    case Deregister(runId, turnId) => Matches(s, runId, turnId)
  }

  function Ran(s: Maps, steps: seq<Step>): Maps {
    if steps == [] then s else Stepped(Ran(s, steps[..|steps| - 1]), steps[|steps| - 1])
  }

  ghost predicate AllAllowed(s: Maps, steps: seq<Step>) {
    steps == [] || (AllAllowed(s, steps[..|steps| - 1]) && Allowed(Ran(s, steps[..|steps| - 1]), steps[|steps| - 1]))
  }

  lemma StepKeeps(s: Maps, step: Step)
    requires Inverse(s) && |s.byRun| <= MAX_TRACKED_RUNS && Allowed(s, step)
    ensures Inverse(Stepped(s, step)) && |Stepped(s, step).byRun| <= MAX_TRACKED_RUNS
  {
    match step
    case Register(run, victim) =>
      RegisterKeeps(s, run, victim);
      RegisterStaysBounded(s, run, victim);
    case Cancel(runId) =>
      CancelKeeps(s, runId);
      assert Cancelled(s, runId).byRun.Keys <= s.byRun.Keys;
      Subset(Cancelled(s, runId).byRun.Keys, s.byRun.Keys);
    case Deregister(runId, turnId) =>
      DeregisterIsExact(s, runId, turnId);
      Subset(Deregistered(s, runId, turnId).byRun.Keys, s.byRun.Keys);
  }

  // ---------------------------------------------------------------- what each operation leaves

  /** A registered run is there and found by its turn; others stay, but for one in a full registry. */
  lemma RegisteredIsFound(s: Maps, r: Run, victim: Option<string>, other: string)
    requires Inverse(s) && MayEvict(s, r.id, victim) && other != r.id
    ensures var next := Registered(s, r, victim);
            r.id in next.byRun && next.byRun[r.id] == r
            && (r.turnId != "" ==> RunForTurn(next, r.turnId) == r.id)
            && (victim.Some? <==> r.id !in s.byRun && |s.byRun| >= 4096)
            && (other in next.byRun <==> other in s.byRun && victim != Some(other))
            && (other in next.byRun ==> next.byRun[other] == s.byRun[other])
  {
  }

  /** A cancelled run is gone, with its turn; a run that cannot be cancelled stays, and so do all others. */
  lemma CancelledIsGone(s: Maps, runId: string, other: string, turnId: string)
    requires Inverse(s) && other != runId
    ensures var next := Cancelled(s, runId);
            (runId in next.byRun <==> runId in s.byRun && !s.byRun[runId].cancellable)
            && (other in next.byRun <==> other in s.byRun) && (other in s.byRun ==> next.byRun[other] == s.byRun[other])
            && (turnId in next.byTurn <==>
                turnId in s.byTurn && (s.byTurn[turnId] != runId || !s.byRun[runId].cancellable))
            && (turnId in next.byTurn ==> next.byTurn[turnId] == s.byTurn[turnId])
  {
  }

  /** A deregistered run and turn are gone, all others stay. */
  lemma DeregisteredIsGone(s: Maps, runId: string, turnId: string)
    ensures var next := Deregistered(s, runId, turnId);
            (forall other :: other in next.byRun <==> other in s.byRun && other != runId)
            && (forall turn :: turn in next.byTurn <==> turn in s.byTurn && (turn != turnId || turnId == ""))
            && (forall other :: other in next.byRun ==> next.byRun[other] == s.byRun[other])
            && (forall turn :: turn in next.byTurn ==> next.byTurn[turn] == s.byTurn[turn])
  {
  }

  // ---------------------------------------------------------------- over every run

  lemma {:induction false} Subset(a: set<string>, b: set<string>)
    requires a <= b
    ensures |a| <= |b|
  {
    assert b == a + (b - a);
  }

  /**
   Over every run, under any choice of evictions, the turn map is the inverse of the runs' turns,
   both maps stay within the bound, and looking a turn up gives exactly the run that serves it.
   */
  lemma {:induction false} RegistryInvariant(steps: seq<Step>, turnId: string, runId: string)
    requires AllAllowed(EMPTY, steps) && turnId != "" && runId != ""
    ensures var s := Ran(EMPTY, steps);
            Inverse(s) && |s.byTurn| <= |s.byRun| <= 4096
            && (RunForTurn(s, turnId) == runId <==> runId in s.byRun && s.byRun[runId].turnId == turnId)
  {
    if steps != [] {
      RegistryInvariant(steps[..|steps| - 1], turnId, runId);
      StepKeeps(Ran(EMPTY, steps[..|steps| - 1]), steps[|steps| - 1]);
    }
    TurnsAreFewer(Ran(EMPTY, steps));
  }
}
