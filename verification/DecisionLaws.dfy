/** What the user's keys decide about a permission prompt, and what a prompt and its resolution show. */
module DecisionLaws {
  import opened Shell
  import opened ShellLaws
  import opened PermissionLaws
  import Sse

  /** The same key several times. */
  function Times(k: Key, n: nat): seq<Input> {
    if n == 0 then [] else Times(k, n - 1) + [KeyPress(k)]
  }

  lemma {:induction false} RanOfConcat(s: Shell, xs: seq<Input>, ys: seq<Input>)
    ensures Ran(s, xs + ys) == Ran(Ran(s, xs), ys)
  {
    if ys == [] {
      assert xs + ys == xs;
    } else {
      assert (xs + ys)[..|xs + ys| - 1] == xs + ys[..|ys| - 1];
      RanOfConcat(s, xs, ys[..|ys| - 1]);
    }
  }

  lemma RanOne(s: Shell, x: Input)
    ensures Ran(s, [x]) == Stepped(s, x)
  {
    assert [x][..0] == [] && Ran(s, []) == s;
  }

  /** The same shell with this selection on the prompt in focus. */
  function Selecting(s: Shell, selection: int): Shell
    requires 0 <= s.activePermission < |s.permissions|
  {
    s.(permissions := s.permissions[s.activePermission :=
      s.permissions[s.activePermission].(selectedAction := selection)])
  }

  lemma SelectingTwice(s: Shell, a: int, b: int)
    requires 0 <= s.activePermission < |s.permissions|
    ensures Selecting(Selecting(s, a), b) == Selecting(s, b)
  {
    var ps, i := s.permissions, s.activePermission;
    assert ps[i := ps[i].(selectedAction := a)][i := ps[i].(selectedAction := b)] ==
           ps[i := ps[i].(selectedAction := b)];
  }

  lemma MoveSelects(s: Shell, delta: int)
    requires 0 <= s.activePermission < |s.permissions|
    ensures var at := s.permissions[s.activePermission].selectedAction + delta;
            Stepped(s, KeyPress(SelectAction(delta))) == Selecting(s, if at < 0 then 0 else if at > 2 then 2 else at)
  {
  }

  lemma MoveFrom(s: Shell, from: int, delta: int, to: int)
    requires 0 <= s.activePermission < |s.permissions|
    requires to == if from + delta < 0 then 0 else if from + delta > 2 then 2 else from + delta
    ensures Stepped(Selecting(s, from), KeyPress(SelectAction(delta))) == Selecting(s, to)
  {
    MoveSelects(Selecting(s, from), delta);
    SelectingTwice(s, from, to);
  }

  /** Where n moves end: to the right at the third action at most, back to the left at the first. */
  function Right(n: nat): nat {
    if n < 2 then n else 2
  }

  function Left(from: nat, n: nat): nat {
    if n < from then from - n else 0
  }

  lemma {:induction false} MovedRight(s: Shell, n: nat)
    requires 0 <= s.activePermission < |s.permissions| && s.permissions[s.activePermission].selectedAction == 0
    ensures Ran(s, Times(SelectAction(1), n)) == Selecting(s, Right(n))
  {
    if n == 0 {
      assert s.permissions[s.activePermission := s.permissions[s.activePermission]] == s.permissions;
    } else {
      MovedRight(s, n - 1);
      MoveFrom(s, Right(n - 1), 1, Right(n));
    }
  }

  lemma TimesMore(s: Shell, k: Key, n: nat)
    ensures Ran(s, Times(k, n + 1)) == Stepped(Ran(s, Times(k, n)), KeyPress(k))
  {
    assert Times(k, n + 1)[..|Times(k, n)|] == Times(k, n);
  }

  lemma {:induction false} MovedLeft(s: Shell, from: nat, n: nat)
    requires 0 <= s.activePermission < |s.permissions| && from <= 2
    ensures Ran(Selecting(s, from), Times(SelectAction(-1), n)) == Selecting(s, Left(from, n))
  {
    if n > 0 {
      MovedLeft(s, from, n - 1);
      TimesMore(Selecting(s, from), SelectAction(-1), n - 1);
      MoveFrom(s, Left(from, n - 1), -1, Left(from, n));
    }
  }

  /** The decision that stands n places from the left. */
  function DecisionAt(n: nat): Decision {
    match n
    case 0 => ApproveOnce
    case 1 => ApproveSession
    case _ => Deny
  }

  lemma EnterDecides(s: Shell, selection: nat, value: string)
    requires 0 <= s.activePermission < |s.permissions| && selection <= 2 && Sse.Trim(value) == ""
    ensures var p := s.permissions[s.activePermission];
            Stepped(Selecting(s, selection), KeyPress(Enter(value, []))) ==
            Selecting(s, selection).(actions := s.actions + [ResolvePermission(p.requestId, DecisionAt(selection))])
  {
  }

  /**
   The user's decision. From the prompt in focus with nothing chosen yet, after `right` moves to the
   right and then `left` to the left, Enter with an empty composer emits one action and no more: for
   that prompt's request, approve once, approve for the session, or deny, by where the moves end.
   */
  lemma KeysDecide(s: Shell, right: nat, left: nat, value: string)
    requires InFocus(s) && s.permissions != [] && s.permissions[s.activePermission].selectedAction == 0
    requires Sse.Trim(value) == ""
    ensures var keys := Times(SelectAction(1), right) + Times(SelectAction(-1), left) + [KeyPress(Enter(value, []))];
            var end := Ran(s, keys);
            end.actions == s.actions + [ResolvePermission(s.permissions[s.activePermission].requestId,
                                                          DecisionAt(Left(Right(right), left)))]
            && end.rows == s.rows && end.activePermission == s.activePermission
            && |end.permissions| == |s.permissions|
  {
    var moves := Times(SelectAction(1), right) + Times(SelectAction(-1), left);
    RanOfConcat(s, Times(SelectAction(1), right), Times(SelectAction(-1), left));
    MovedRight(s, right);
    MovedLeft(s, Right(right), left);
    var last := KeyPress(Enter(value, []));
    RanOfConcat(s, moves, [last]);
    RanOne(Ran(s, moves), last);
    EnterDecides(s, Left(Right(right), left), value);
  }

  /** The shortcuts: y approves the request in focus once, n denies it. */
  lemma ShortcutsDecide(s: Shell)
    requires InFocus(s) && s.permissions != []
    ensures var id := s.permissions[s.activePermission].requestId;
            Stepped(s, KeyPress(Shortcut(true))) == s.(actions := s.actions + [ResolvePermission(id, ApproveOnce)])
            && Stepped(s, KeyPress(Shortcut(false))) == s.(actions := s.actions + [ResolvePermission(id, Deny)])
  {
  }

  /** With nothing pending these keys decide nothing. */
  lemma NothingToDecide(s: Shell, approve: bool, delta: int)
    requires s.permissions == []
    ensures Stepped(s, KeyPress(Shortcut(approve))) == s
    ensures Stepped(s, KeyPress(SelectAction(delta))) == s && Stepped(s, KeyPress(SelectPermission(delta))) == s
  {
  }

  /** Moving the focus goes that far and stops at the ends; nothing else changes. */
  lemma FocusMoves(s: Shell, delta: int)
    requires InFocus(s) && s.permissions != []
    ensures var next, to := Stepped(s, KeyPress(SelectPermission(delta))), s.activePermission + delta;
            next == s.(activePermission := next.activePermission)
            && (0 <= to < |s.permissions| ==> next.activePermission == to)
            && (to < 0 ==> next.activePermission == 0)
            && (to >= |s.permissions| ==> next.activePermission == |s.permissions| - 1)
  {
  }

  // ---------------------------------------------------------------- asked and resolved

  lemma AskedShows(s: Shell, id: string, summary: string)
    requires id != ""
    ensures var asked := Stepped(s, Event(PermissionRequested(id, summary)));
            |asked.rows| == |s.rows| + 1 && asked.rows[..|s.rows|] == s.rows
            && asked.rows[|s.rows|].role == EventRow && asked.rows[|s.rows|].text == summary
            && asked.rows[|s.rows|].requestId == id && asked.rows[|s.rows|].status == "requested"
            && asked.permissions == s.permissions + [Pending(id, 0)] && asked.activePermission == |s.permissions|
            && asked.actions == s.actions
  {
  }

  /** A request takes the focus: Enter on an empty composer then approves it once. */
  lemma AskedAndApproved(s: Shell, id: string, summary: string, value: string)
    requires InFocus(s) && id != "" && Sse.Trim(value) == ""
    ensures Ran(s, [Event(PermissionRequested(id, summary)), KeyPress(Enter(value, []))]).actions ==
            s.actions + [ResolvePermission(id, ApproveOnce)]
  {
    var asked, enter := Stepped(s, Event(PermissionRequested(id, summary))), KeyPress(Enter(value, []));
    AskedShows(s, id, summary);
    RanOne(s, Event(PermissionRequested(id, summary)));
    RanOfConcat(s, [Event(PermissionRequested(id, summary))], [enter]);
    RanOne(asked, enter);
    assert [Event(PermissionRequested(id, summary))] + [enter] == [Event(PermissionRequested(id, summary)), enter];
    EnterDecides(asked, 0, value);
    assert Selecting(asked, 0) == asked by {
      assert asked.permissions[asked.activePermission] == Pending(id, 0);
      assert asked.permissions[asked.activePermission := Pending(id, 0)] == asked.permissions;
    }
  }

  /** What the transcript says about a resolved request. */
  function Verdict(outcome: PermissionOutcome): string {
    match outcome
    case ApprovedOnce => "granted"
    case ApprovedSession => "granted"
    case Denied => "denied"
    case OtherOutcome => "done"
  }

  lemma MarkedLast(rows: seq<Row>, row: Row, id: string, status: string)
    requires IsRequestRow(row, id) && forall r :: r in rows ==> !IsRequestRow(r, id)
    ensures MarkRequest(rows + [row], id, status) == rows + [row.(status := status)]
  {
    var all := rows + [row];
    assert forall k :: 0 <= k < |rows| ==> all[k] in rows;
    MarkAt(all, |rows|, id, status);
    assert all[|rows| := row.(status := status)] == rows + [row.(status := status)];
  }

  lemma RemovedLast(ps: seq<Pending>, p: Pending)
    requires forall q :: q in ps ==> q.requestId != p.requestId
    ensures RemovePending(ps + [p], p.requestId) == ps
  {
    var all := ps + [p];
    assert forall k :: 0 <= k < |ps| ==> all[k] in ps;
    RemoveAt(all, |ps|, p.requestId);
    assert all[..|ps|] + all[|ps| + 1..] == ps;
  }

  /**
   A new request that is asked and then resolved leaves its row marked with the verdict, and the
   prompts as they were, with the focus on the last of them.
   */
  lemma AskedAndResolved(s: Shell, id: string, summary: string, outcome: PermissionOutcome)
    requires id != "" && (forall r :: r in s.rows ==> !IsRequestRow(r, id))
    requires forall p :: p in s.permissions ==> p.requestId != id
    ensures var asked := Stepped(s, Event(PermissionRequested(id, summary)));
            var next := Stepped(asked, Event(PermissionResolved(id, outcome)));
            next.rows == s.rows + [asked.rows[|s.rows|].(status := Verdict(outcome))]
            && next.permissions == s.permissions && next.actions == s.actions
            && next.activePermission == if s.permissions == [] then 0 else |s.permissions| - 1
  {
    var asked := Stepped(s, Event(PermissionRequested(id, summary)));
    AskedShows(s, id, summary);
    assert asked.rows == s.rows + [asked.rows[|s.rows|]];
    MarkedLast(s.rows, asked.rows[|s.rows|], id, Verdict(outcome));
    RemovedLast(s.permissions, Pending(id, 0));
    assert StatusFor(outcome) == Verdict(outcome);
  }

  /** Information from the host is a row of its own at the end, unless it is empty. */
  lemma InfoShows(s: Shell, text: string)
    ensures var next := Stepped(s, Event(HostInfo(text)));
            next == s.(rows := next.rows)
            && (text == "" ==> next.rows == s.rows)
            && (text != "" ==> |next.rows| == |s.rows| + 1 && next.rows[..|s.rows|] == s.rows
                               && next.rows[|s.rows|].role == HostInfoRow && next.rows[|s.rows|].text == text)
  {
  }

  /** Clearing the transcript drops its rows and all that is queued, and nothing else. */
  lemma ClearedIsEmpty(s: Shell)
    ensures Stepped(s, Event(TranscriptClear)) == s.(rows := [], queued := [], merging := [])
  {
  }
}
