/** The pending prompts over every run: what is in focus, and when a resolution moves the focus. */
module PermissionLaws {
  import opened Shell
  import opened ShellLaws

  /** The focus is on a pending prompt, if there is one, and every selection is one of the three actions. */
  ghost predicate InFocus(s: Shell) {
    (if s.permissions == [] then s.activePermission == 0 else 0 <= s.activePermission < |s.permissions|)
    && forall p :: p in s.permissions ==> 0 <= p.selectedAction <= 2
  }

  lemma {:induction false} RemovedSelects(ps: seq<Pending>, id: string)
    ensures |ps| - 1 <= |RemovePending(ps, id)| <= |ps|
    ensures forall p :: p in RemovePending(ps, id) ==> p in ps
  {
    if ps != [] {
      RemovedSelects(ps[1..], id);
      assert ps == [ps[0]] + ps[1..];
    }
  }

  lemma ResolvedKeepsFocus(s: Shell, id: string, outcome: PermissionOutcome)
    requires InFocus(s)
    ensures InFocus(Resolved(s, id, outcome))
  {
    RemovedSelects(s.permissions, id);
  }

  lemma EventKeepsFocus(s: Shell, e: HostEvent)
    requires InFocus(s)
    ensures InFocus(Applied(s, e))
  {
    if e.PermissionResolved? {
      ResolvedKeepsFocus(s, e.requestId, e.outcome);
    } else if e.PermissionRequested? {
      assert forall p :: p in s.permissions + [Pending(e.requestId, 0)] ==>
                           p in s.permissions || p == Pending(e.requestId, 0);
    }
  }

  lemma SubmitKeepsFocus(s: Shell, k: Key)
    requires InFocus(s) && k.Enter?
    ensures InFocus(Pressed(s, k))
  {
    assert Pressed(s, k).permissions == s.permissions;
  }

  lemma KeyKeepsFocus(s: Shell, k: Key)
    requires InFocus(s)
    ensures InFocus(Pressed(s, k))
  {
    if k.Enter? {
      SubmitKeepsFocus(s, k);
    } else if k.SelectAction? && s.permissions != [] {
      var i := Clamp(s.activePermission, |s.permissions|);
      var p := s.permissions[i].(selectedAction := ClampAction(s.permissions[i].selectedAction + k.delta));
      assert s.permissions[i] in s.permissions;
      assert forall q :: q in s.permissions[i := p] ==> q == p || q in s.permissions;
    }
  }

  /** Over every run the focus is on a pending prompt and stands on one of its three actions. */
  lemma {:induction false} FocusStaysInRange(s: Shell, xs: seq<Input>)
    requires InFocus(s)
    ensures InFocus(Ran(s, xs))
  {
    if xs != [] {
      FocusStaysInRange(s, xs[..|xs| - 1]);
      var before := Ran(s, xs[..|xs| - 1]);
      match xs[|xs| - 1]
      case Event(e) => EventKeepsFocus(before, e);
      case KeyPress(k) => KeyKeepsFocus(before, k);
    }
  }

  ghost predicate DistinctRequests(ps: seq<Pending>) {
    forall i, j :: 0 <= i < j < |ps| ==> ps[i].requestId != ps[j].requestId
  }

  lemma ResolvedFocus(s: Shell, i: nat, outcome: PermissionOutcome)
    requires InFocus(s) && i < |s.permissions| && i != s.activePermission && DistinctRequests(s.permissions)
    requires s.permissions[i].requestId != ""
    ensures var next := Resolved(s, s.permissions[i].requestId, outcome);
            next.permissions == s.permissions[..i] + s.permissions[i + 1..]
            && next.activePermission ==
               if s.activePermission == |s.permissions| - 1 then |s.permissions| - 2 else s.activePermission
  {
    RemoveAt(s.permissions, i, s.permissions[i].requestId);
  }

  /** One prompt less: when the focus is still on the same one. */
  lemma ShiftedExactly(ps: seq<Pending>, i: nat, at: nat)
    requires i < |ps| && at < |ps| && i != at && DistinctRequests(ps)
    ensures var left, now := ps[..i] + ps[i + 1..], if at == |ps| - 1 then |ps| - 2 else at;
            left[now] == ps[at] <==> at < i || at == |ps| - 1
  {
    var left := ps[..i] + ps[i + 1..];
    if i < at && at < |ps| - 1 {
      assert left[at] == ps[at + 1] && ps[at + 1].requestId != ps[at].requestId;
    } else if i < at {
      assert left[at - 1] == ps[at];
    }
  }

  /**
   Resolving a prompt that is not in focus leaves the focus where it was exactly when that prompt
   comes later, or the one in focus is the last: otherwise the next Enter decides another request.
   */
  lemma FocusKeptExactly(s: Shell, i: nat, outcome: PermissionOutcome)
    requires InFocus(s) && i < |s.permissions| && i != s.activePermission && DistinctRequests(s.permissions)
    requires s.permissions[i].requestId != ""
    ensures var next := Resolved(s, s.permissions[i].requestId, outcome);
            InFocus(next) && next.permissions != []
            && (next.permissions[next.activePermission] == s.permissions[s.activePermission] <==>
                s.activePermission < i || s.activePermission == |s.permissions| - 1)
  {
    ResolvedKeepsFocus(s, s.permissions[i].requestId, outcome);
    ResolvedFocus(s, i, outcome);
    ShiftedExactly(s.permissions, i, s.activePermission);
  }

  /** Three prompts, the second in focus, the first resolved: the focus is on the third. */
  lemma ResolvingMovesFocus(s: Shell, outcome: PermissionOutcome)
    requires |s.permissions| == 3 && s.activePermission == 1 && s.permissions[0].requestId != ""
    ensures var next := Resolved(s, s.permissions[0].requestId, outcome);
            |next.permissions| == 2 && next.permissions[next.activePermission] == s.permissions[2]
  {
    RemoveAt(s.permissions, 0, s.permissions[0].requestId);
  }
}
