/**
 The conversation shell's own state: transcript rows, the follow-up queue and the pending
 permissions (internal/harnessshell/events.go, queue.go, permissions.go). `ShellState` is the
 source's mutable state; each method is tied to a function on the value `Shell`.
 */
module Shell {
  import opened Numbers
  import Sse

  datatype Role = User | Assistant | EventRow | HostInfoRow

  datatype Token = Token(id: string, payload: string)

  datatype Row = Row(role: Role, text: string, streaming: bool, submissionId: string, runId: string,
                     requestId: string, status: string, entries: seq<string>, tokens: seq<Token>)

  datatype Queued = Queued(id: string, text: string, entries: seq<string>, tokens: seq<Token>)

  datatype Pending = Pending(requestId: string, selectedAction: int)

  datatype PermissionOutcome = ApprovedOnce | ApprovedSession | Denied | OtherOutcome

  datatype Decision = ApproveOnce | ApproveSession | Deny

  datatype Source = Direct | QueueRelease

  datatype Action =
    | SubmitTurn(submissionId: string, entries: seq<string>, text: string, tokens: seq<Token>, source: Source)
    | InterruptRun(runId: string)
    | ResolvePermission(requestId: string, decision: Decision)
    | RunHostCommand(raw: string)

  datatype HostEvent =
    | SubmissionAccepted(submissionId: string, runId: string)
    | SubmissionFailed(submissionId: string)
    | RunStarted(submissionId: string, runId: string)
    | RunDelta(runId: string, delta: string)
    | RunCompleted(runId: string)
    | RunStopped(runId: string)
    | RunFailed(runId: string)
    | PermissionRequested(requestId: string, summary: string)
    | PermissionResolved(requestId: string, outcome: PermissionOutcome)
    | PreviewLoaded
    | HostStatus
    | HostInfo(text: string)
    | TranscriptClear

  datatype Key =
    | Enter(value: string, tokens: seq<Token>)   // the composer's content when Enter is pressed
    | Escape
    | SelectAction(delta: int)
    | SelectPermission(delta: int)
    | Shortcut(approve: bool)                    // y or n with an empty composer

  /** The shell's state as a value. `actions` lists every action emitted so far. */
  datatype Shell = Shell(rows: seq<Row>, queued: seq<Queued>, merging: seq<Queued>, streaming: bool,
                         interruptArmed: bool, activeRunId: string, counter: nat,
                         permissions: seq<Pending>, activePermission: int, actions: seq<Action>)

  // ---------------------------------------------------------------- rows

  const BLANK := Row(HostInfoRow, "", false, "", "", "", "", [], [])

  predicate Carries(row: Row, runId: string) {
    row.role == Assistant && row.runId == runId && row.streaming
  }

  /** The first streaming assistant row of a run, or the end. */
  function FirstRow(rows: seq<Row>, runId: string): (i: nat)
    ensures i <= |rows| && (i < |rows| ==> Carries(rows[i], runId))
  {
    if rows == [] || Carries(rows[0], runId) then 0 else 1 + FirstRow(rows[1..], runId)
  }

  predicate Fallback(row: Row, anyRun: bool) {
    row.role == Assistant && row.streaming && (anyRun || row.runId == "")
  }

  /** The last streaming assistant row, of any run or of none yet; -1 when there is none. */
  function LastRow(rows: seq<Row>, anyRun: bool): (i: int)
    ensures -1 <= i < |rows| && (i >= 0 ==> Fallback(rows[i], anyRun))
  {
    if rows == [] then -1
    else if Fallback(rows[|rows| - 1], anyRun) then |rows| - 1
    else LastRow(rows[..|rows| - 1], anyRun)
  }

  function RowIndexFor(rows: seq<Row>, runId: string): (i: int)
    ensures -1 <= i < |rows|
  {
    if runId == "" then LastRow(rows, true)
    else if FirstRow(rows, runId) < |rows| then FirstRow(rows, runId)
    else LastRow(rows, false)
  }

  function AppendText(rows: seq<Row>, runId: string, delta: string): seq<Row> {
    var i := RowIndexFor(rows, runId);
    if delta == "" || i < 0 then rows else rows[i := rows[i].(text := rows[i].text + delta, streaming := true)]
  }

  function EndRow(rows: seq<Row>, runId: string): seq<Row> {
    var i := RowIndexFor(rows, runId);
    if i < 0 then rows else rows[i := rows[i].(streaming := false)]
  }

  predicate IsPlaceholder(row: Row, submissionId: string) {
    row.role == Assistant && row.submissionId == submissionId
  }

  /** Gives the first assistant row of a submission its run. */
  function Correlate(rows: seq<Row>, submissionId: string, runId: string): seq<Row> {
    if submissionId == "" || rows == [] then rows
    else if IsPlaceholder(rows[0], submissionId) then [rows[0].(runId := runId)] + rows[1..]
    else [rows[0]] + Correlate(rows[1..], submissionId, runId)
  }

  function Without(rows: seq<Row>, submissionId: string): seq<Row> {
    if submissionId == "" || rows == [] then rows
    else
      var last := rows[|rows| - 1];
      Without(rows[..|rows| - 1], submissionId) + if last.submissionId == submissionId then [] else [last]
  }

  function StatusFor(outcome: PermissionOutcome): string {
    match outcome
    case ApprovedOnce => "granted"
    case ApprovedSession => "granted"
    case Denied => "denied"
    case OtherOutcome => "done"
  }

  predicate IsRequestRow(row: Row, requestId: string) {
    row.role == EventRow && row.requestId == requestId
  }

  function MarkRequest(rows: seq<Row>, requestId: string, status: string): seq<Row> {
    if rows == [] then rows
    else if IsRequestRow(rows[0], requestId) then [rows[0].(status := status)] + rows[1..]
    else [rows[0]] + MarkRequest(rows[1..], requestId, status)
  }

  // ---------------------------------------------------------------- permissions

  function Clamp(i: int, n: nat): int {
    if n == 0 then i else if i < 0 then 0 else if i >= n then n - 1 else i
  }

  function RemovePending(ps: seq<Pending>, requestId: string): seq<Pending> {
    if ps == [] then []
    else if ps[0].requestId == requestId then ps[1..]
    else [ps[0]] + RemovePending(ps[1..], requestId)
  }

  function DecisionFor(selectedAction: int): Decision {
    if selectedAction == 0 then ApproveOnce else if selectedAction == 1 then ApproveSession else Deny
  }

  function ClampAction(a: int): int {
    if a < 0 then 0 else if a > 2 then 2 else a
  }

  // ---------------------------------------------------------------- the queue

  function SubmissionName(n: nat): string {
    "sub-" + Decimal(n)
  }

  function Merged(items: seq<Queued>): Queued {
    if items == [] then Queued("", "", [], [])
    else
      var front, item := Merged(items[..|items| - 1]), items[|items| - 1];
      var text := Sse.Trim(item.text);
      Queued("",
             if text == "" then front.text else if front.text == "" then text else front.text + "\n\n" + text,
             front.entries + (if item.entries != [] then item.entries else if text != "" then [text] else []),
             front.tokens + item.tokens)
  }

  /** The rows of a submission: the user's, then its assistant placeholder. */
  function Optimistic(id: string, text: string, entries: seq<string>, tokens: seq<Token>): seq<Row> {
    [BLANK.(role := User, text := text, submissionId := id, entries := entries, tokens := tokens),
     BLANK.(role := Assistant, streaming := true, submissionId := id)]
  }

  function Begun(s: Shell, content: string, entries: seq<string>, tokens: seq<Token>, source: Source): Shell {
    var id, text := SubmissionName(s.counter + 1), Sse.Trim(content);
    s.(counter := s.counter + 1, rows := s.rows + Optimistic(id, text, entries, tokens),
    streaming := true, interruptArmed := false,
    actions := s.actions + [SubmitTurn(id, entries, text, tokens, source)])
  }

  function Enqueued(s: Shell, content: string, tokens: seq<Token>): Shell {
    s.(counter := s.counter + 1,
    queued := s.queued + [Queued(SubmissionName(s.counter + 1), content,
                                 if Sse.Trim(content) == "" then [] else [content], tokens)])
  }

  predicate HasQueue(s: Shell) {
    s.queued != [] || s.merging != []
  }

  function Released(s: Shell): Shell {
    var items := if s.merging == [] then s.queued else s.merging;
    var left := if s.merging == [] then [] else s.queued;
    if items == [] then s
    else Begun(s.(queued := left, merging := []), Merged(items).text, Merged(items).entries, Merged(items).tokens,
               QueueRelease)
  }

  // ---------------------------------------------------------------- events and keys

  /** What every terminal event clears. */
  function Idle(s: Shell): Shell {
    s.(streaming := false, interruptArmed := false, activeRunId := "")
  }

  function Ended(s: Shell, runId: string): Shell {
    Idle(s.(rows := EndRow(s.rows, runId)))
  }

  function Started(s: Shell, submissionId: string, runId: string): Shell {
    var on := s.(streaming := true);
    if runId == "" then on
    else if submissionId != "" then on.(activeRunId := runId, rows := Correlate(s.rows, submissionId, runId))
    else if RowIndexFor(s.rows, runId) >= 0 then on.(activeRunId := runId)
    else on.(activeRunId := runId, rows := s.rows + [BLANK.(role := Assistant, runId := runId, streaming := true)])
  }

  function Resolved(s: Shell, requestId: string, outcome: PermissionOutcome): Shell {
    if requestId == "" then s
    else
      var left := RemovePending(s.permissions, requestId);
      s.(rows := MarkRequest(s.rows, requestId, StatusFor(outcome)),
      permissions := left,
      activePermission :=
        if |left| == |s.permissions| then s.activePermission
        else if left == [] then 0
        else if s.activePermission >= |left| then |left| - 1
        else s.activePermission)
  }

  function Requested(s: Shell, requestId: string, summary: string): Shell {
    if requestId == "" then s
    else s.(rows := s.rows + [BLANK.(role := EventRow, text := summary, requestId := requestId, status := "requested")],
         permissions := s.permissions + [Pending(requestId, 0)],
         activePermission := |s.permissions|)
  }

  function Applied(s: Shell, e: HostEvent): Shell {
    match e
    case SubmissionAccepted(sub, run) =>
      if run == "" then s else s.(activeRunId := run, rows := Correlate(s.rows, sub, run))
    case SubmissionFailed(sub) => Idle(s.(rows := Without(s.rows, sub)))
    case RunStarted(sub, run) => Started(s, sub, run)
    case RunDelta(run, delta) => s.(rows := AppendText(s.rows, run, delta))
    case RunCompleted(run) => if HasQueue(s) then Released(Ended(s, run)) else Ended(s, run)
    case RunStopped(run) => Ended(s, run)
    case RunFailed(run) => Ended(s, run)
    case PermissionRequested(id, summary) => Requested(s, id, summary)
    case PermissionResolved(id, outcome) => Resolved(s, id, outcome)
    case PreviewLoaded => s
    case HostStatus => s
    case HostInfo(text) => if text == "" then s else s.(rows := s.rows + [BLANK.(text := text)])
    case TranscriptClear => s.(rows := [], queued := [], merging := [])
  }

  predicate IsCommand(content: string, tokens: seq<Token>) {
    |content| > 1 && content[0] == '/' && tokens == []
  }

  /** The action that decides the prompt in focus. */
  function Decided(s: Shell, decision: Decision): Shell
    requires s.permissions != []
  {
    var i := Clamp(s.activePermission, |s.permissions|);
    s.(activePermission := i, actions := s.actions + [ResolvePermission(s.permissions[i].requestId, decision)])
  }

  function Decide(s: Shell): Shell
    requires s.permissions != []
  {
    Decided(s, DecisionFor(s.permissions[Clamp(s.activePermission, |s.permissions|)].selectedAction))
  }

  function Submitted(s: Shell, value: string, tokens: seq<Token>): Shell {
    var content := Sse.Trim(value);
    if content == "" && tokens == [] then
      if s.permissions != [] then Decide(s)
      else if !s.streaming && HasQueue(s) then Released(s)
      else s
    else if IsCommand(content, tokens) then s.(actions := s.actions + [RunHostCommand(content)])
    else if s.streaming || HasQueue(s) then
      var next := Enqueued(s, content, tokens);
      if s.streaming then next else Released(next)
    else Begun(s, content, [], tokens, Direct)
  }

  function Interrupted(s: Shell): Shell {
    if !s.streaming then s
    else if s.interruptArmed then s.(interruptArmed := false, actions := s.actions + [InterruptRun(s.activeRunId)])
    else s.(interruptArmed := true)
  }

  function Pressed(s: Shell, k: Key): Shell {
    match k
    case Enter(value, tokens) => Submitted(s, value, tokens)
    case Escape => Interrupted(s)
    case SelectAction(delta) =>
      if s.permissions == [] then s
      else
        var i := Clamp(s.activePermission, |s.permissions|);
        s.(activePermission := i,
        permissions := s.permissions[i := s.permissions[i].(
          selectedAction := ClampAction(s.permissions[i].selectedAction + delta))])
    case SelectPermission(delta) =>
      if |s.permissions| < 2 then s
      else s.(activePermission := Clamp(s.activePermission + delta, |s.permissions|))
    case Shortcut(approve) =>
      if s.permissions == [] then s else Decided(s, if approve then ApproveOnce else Deny)
  }

  // ---------------------------------------------------------------- first matches

  lemma {:induction false} CorrelateAt(rows: seq<Row>, i: nat, submissionId: string, runId: string)
    requires submissionId != "" && i <= |rows| && (i < |rows| ==> IsPlaceholder(rows[i], submissionId))
    requires forall k :: 0 <= k < i ==> !IsPlaceholder(rows[k], submissionId)
    ensures Correlate(rows, submissionId, runId) == if i < |rows| then rows[i := rows[i].(runId := runId)] else rows
  {
    if i > 0 {
      CorrelateAt(rows[1..], i - 1, submissionId, runId);
    }
  }

  lemma {:induction false} MarkAt(rows: seq<Row>, i: nat, requestId: string, status: string)
    requires i <= |rows| && (i < |rows| ==> IsRequestRow(rows[i], requestId))
    requires forall k :: 0 <= k < i ==> !IsRequestRow(rows[k], requestId)
    ensures MarkRequest(rows, requestId, status) == if i < |rows| then rows[i := rows[i].(status := status)] else rows
  {
    if i > 0 {
      MarkAt(rows[1..], i - 1, requestId, status);
    }
  }

  lemma {:induction false} RemoveAt(ps: seq<Pending>, i: nat, requestId: string)
    requires i <= |ps| && (i < |ps| ==> ps[i].requestId == requestId)
    requires forall k :: 0 <= k < i ==> ps[k].requestId != requestId
    ensures RemovePending(ps, requestId) == if i < |ps| then ps[..i] + ps[i + 1..] else ps
  {
    if i > 0 {
      RemoveAt(ps[1..], i - 1, requestId);
      assert i < |ps| ==> ps[1..][..i - 1] == ps[1..i] && ps[1..][i..] == ps[i + 1..];
    }
  }

  // ---------------------------------------------------------------- the mutable state

  class ShellState {
    var items: seq<Row>
    var queuedSubmissions: seq<Queued>
    var pendingSubmissions: seq<Queued>
    var streaming: bool
    var interruptArmed: bool
    var activeRunId: string
    var submissionCounter: nat
    var pendingPermissions: seq<Pending>
    var activePermissionIndex: int
    var pendingActions: seq<Action>

    function View(): Shell
      reads this
    {
      Shell(items, queuedSubmissions, pendingSubmissions, streaming, interruptArmed, activeRunId, submissionCounter,
            pendingPermissions, activePermissionIndex, pendingActions)
    }

    constructor ()
      ensures View() == Shell([], [], [], false, false, "", 0, [], 0, [])
    {
      items, queuedSubmissions, pendingSubmissions, pendingPermissions, pendingActions := [], [], [], [], [];
      streaming, interruptArmed, activeRunId, submissionCounter, activePermissionIndex := false, false, "", 0, 0;
    }

    method AssistantRowIndexForRun(runId: string) returns (index: int)
      ensures index == RowIndexFor(items, runId)
    {
      if runId != "" {
        var i := 0;
        while i < |items|
          invariant i <= |items| && FirstRow(items, runId) == i + FirstRow(items[i..], runId)
        {
          if Carries(items[i], runId) {
            return i;
          }
          assert items[i..][1..] == items[i + 1..];
          i := i + 1;
        }
        index := FindLast(false);
        return;
      }
      index := FindLast(true);
    }

    method FindLast(anyRun: bool) returns (index: int)
      ensures index == LastRow(items, anyRun)
    {
      index := |items| - 1;
      assert items[..|items|] == items;
      while index >= 0
        invariant -1 <= index < |items| && LastRow(items, anyRun) == LastRow(items[..index + 1], anyRun)
      {
        if Fallback(items[index], anyRun) {
          return;
        }
        assert items[..index + 1][..index] == items[..index];
        index := index - 1;
      }
    }

    method AssignRunIdToPlaceholder(submissionId: string, runId: string)
      modifies this`items
      ensures items == Correlate(old(items), submissionId, runId)
    {
      if submissionId == "" {
        return;
      }
      for i := 0 to |items|
        invariant items == old(items)
        invariant forall k :: 0 <= k < i ==> !IsPlaceholder(items[k], submissionId)
      {
        if items[i].role == Assistant && items[i].submissionId == submissionId {
          CorrelateAt(items, i, submissionId, runId);
          items := items[i := items[i].(runId := runId)];
          return;
        }
      }
      CorrelateAt(items, |items|, submissionId, runId);
    }

    method RemovePlaceholderForSubmission(submissionId: string)
      modifies this`items
      ensures items == Without(old(items), submissionId)
    {
      if submissionId == "" {
        return;
      }
      var out := [];
      for i := 0 to |items|
        invariant items == old(items) && out == Without(items[..i], submissionId)
      {
        assert items[..i + 1][..i] == items[..i];
        if items[i].submissionId != submissionId {
          out := out + [items[i]];
        }
      }
      assert items[..|items|] == items;
      items := out;
    }

    method MarkEventRow(requestId: string, status: string)
      modifies this`items
      ensures items == MarkRequest(old(items), requestId, status)
    {
      for i := 0 to |items|
        invariant items == old(items)
        invariant forall k :: 0 <= k < i ==> !IsRequestRow(items[k], requestId)
      {
        if items[i].role == EventRow && items[i].requestId == requestId {
          MarkAt(items, i, requestId, status);
          items := items[i := items[i].(status := status)];
          return;
        }
      }
      MarkAt(items, |items|, requestId, status);
    }

    method RemovePendingPermissionByID(id: string)
      modifies this`pendingPermissions, this`activePermissionIndex
      ensures pendingPermissions == RemovePending(old(pendingPermissions), id)
      ensures activePermissionIndex ==
              if |pendingPermissions| == |old(pendingPermissions)| then old(activePermissionIndex)
              else if pendingPermissions == [] then 0
              else if old(activePermissionIndex) >= |pendingPermissions| then |pendingPermissions| - 1
              else old(activePermissionIndex)
    {
      for i := 0 to |pendingPermissions|
        invariant pendingPermissions == old(pendingPermissions) && activePermissionIndex == old(activePermissionIndex)
        invariant forall k :: 0 <= k < i ==> pendingPermissions[k].requestId != id
      {
        if pendingPermissions[i].requestId == id {
          RemoveAt(pendingPermissions, i, id);
          pendingPermissions := pendingPermissions[..i] + pendingPermissions[i + 1..];
          if |pendingPermissions| == 0 {
            activePermissionIndex := 0;
          } else if activePermissionIndex >= |pendingPermissions| {
            activePermissionIndex := |pendingPermissions| - 1;
          }
          return;
        }
      }
      RemoveAt(pendingPermissions, |pendingPermissions|, id);
    }

    method MergeQueuedSubmissions(items: seq<Queued>) returns (merged: Queued)
      ensures merged == Merged(items)
    {
      merged := Queued("", "", [], []);
      for i := 0 to |items|
        invariant merged == Merged(items[..i])
      {
        assert items[..i + 1][..i] == items[..i];
        var text := Sse.Trim(items[i].text);
        if text != "" {
          merged := merged.(text := if merged.text == "" then text else merged.text + "\n\n" + text);
        }
        if |items[i].entries| > 0 {
          merged := merged.(entries := merged.entries + items[i].entries);
        } else if text != "" {
          merged := merged.(entries := merged.entries + [text]);
        }
        merged := merged.(tokens := merged.tokens + items[i].tokens);
      }
      assert items[..|items|] == items;
    }

    method BeginSubmission(content: string, entries: seq<string>, tokens: seq<Token>, source: Source)
      modifies this
      ensures View() == Begun(old(View()), content, entries, tokens, source)
    {
      submissionCounter := submissionCounter + 1;
      var id := SubmissionName(submissionCounter);
      var text := Sse.Trim(content);
      items := items + Optimistic(id, text, entries, tokens);
      streaming := true;
      interruptArmed := false;
      pendingActions := pendingActions + [SubmitTurn(id, entries, text, tokens, source)];
    }

    method EnqueueSubmission(content: string, tokens: seq<Token>)
      modifies this
      ensures View() == Enqueued(old(View()), content, tokens)
    {
      var entries := [content];
      if Sse.Trim(content) == "" {
        entries := [];
      }
      submissionCounter := submissionCounter + 1;
      queuedSubmissions := queuedSubmissions + [Queued(SubmissionName(submissionCounter), content, entries, tokens)];
    }

    method ReleaseQueuedSubmission()
      modifies this
      ensures View() == Released(old(View()))
    {
      if |pendingSubmissions| == 0 && |queuedSubmissions| > 0 {
        pendingSubmissions := pendingSubmissions + queuedSubmissions;
        queuedSubmissions := [];
      }
      if |pendingSubmissions| == 0 {
        return;
      }
      var merged := MergeQueuedSubmissions(pendingSubmissions);
      assert pendingSubmissions ==
             if old(pendingSubmissions) == [] then old(queuedSubmissions) else old(pendingSubmissions);
      pendingSubmissions := [];
      BeginSubmission(merged.text, merged.entries, merged.tokens, QueueRelease);
    }

    method EndRun(runId: string)
      modifies this
      ensures View() == Ended(old(View()), runId)
    {
      var index := AssistantRowIndexForRun(runId);
      if index >= 0 {
        items := items[index := items[index].(streaming := false)];
      }
      streaming := false;
      interruptArmed := false;
      activeRunId := "";
    }

    method ApplyRunDelta(runId: string, delta: string)
      modifies this`items
      ensures items == AppendText(old(items), runId, delta)
    {
      if delta == "" {
        return;
      }
      var index := AssistantRowIndexForRun(runId);
      if index < 0 {
        return;
      }
      items := items[index := items[index].(text := items[index].text + delta, streaming := true)];
    }

    method ApplyRunStarted(submissionId: string, runId: string)
      modifies this
      ensures View() == Started(old(View()), submissionId, runId)
    {
      streaming := true;
      if runId != "" {
        activeRunId := runId;
        if submissionId != "" {
          AssignRunIdToPlaceholder(submissionId, runId);
        } else {
          var index := AssistantRowIndexForRun(runId);
          if index < 0 {
            items := items + [BLANK.(role := Assistant, runId := runId, streaming := true)];
          }
        }
      }
    }

    method ApplySubmissionFailed(submissionId: string)
      modifies this
      ensures View() == Idle(old(View()).(rows := Without(old(items), submissionId)))
    {
      RemovePlaceholderForSubmission(submissionId);
      streaming := false;
      interruptArmed := false;
      activeRunId := "";
    }

    method ApplyPermissionRequested(requestId: string, summary: string)
      modifies this
      ensures View() == Requested(old(View()), requestId, summary)
    {
      if requestId == "" {
        return;
      }
      items := items + [BLANK.(role := EventRow, text := summary, requestId := requestId, status := "requested")];
      pendingPermissions := pendingPermissions + [Pending(requestId, 0)];
      activePermissionIndex := |pendingPermissions| - 1;
    }

    method ApplyPermissionResolved(requestId: string, outcome: PermissionOutcome)
      modifies this
      ensures View() == Resolved(old(View()), requestId, outcome)
    {
      if requestId == "" {
        return;
      }
      MarkEventRow(requestId, StatusFor(outcome));
      RemovePendingPermissionByID(requestId);
    }

    /** Dispatches a host event to its handler. */
    method ApplyHostEvent(e: HostEvent)
      modifies this
      ensures View() == Applied(old(View()), e)
    {
      match e {
        case SubmissionAccepted(sub, run) =>
          if run != "" {
            activeRunId := run;
            AssignRunIdToPlaceholder(sub, run);
          }
        case SubmissionFailed(sub) => ApplySubmissionFailed(sub);
        case RunStarted(sub, run) => ApplyRunStarted(sub, run);
        case RunDelta(run, delta) => ApplyRunDelta(run, delta);
        case RunCompleted(run) =>
          EndRun(run);
          if |queuedSubmissions| > 0 || |pendingSubmissions| > 0 {
            ReleaseQueuedSubmission();
          }
        case RunStopped(run) => EndRun(run);
        case RunFailed(run) => EndRun(run);
        case PermissionRequested(id, summary) => ApplyPermissionRequested(id, summary);
        case PermissionResolved(id, outcome) => ApplyPermissionResolved(id, outcome);
        case PreviewLoaded =>
        case HostStatus =>
        case HostInfo(text) =>
          if text != "" {
            items := items + [BLANK.(text := text)];
          }
        case TranscriptClear =>
          items, queuedSubmissions, pendingSubmissions := [], [], [];
      }
    }

    /** Emits the decision; the prompt stays until the host resolves it. */
    method ResolveActivePermission(decision: Decision)
      requires pendingPermissions != []
      modifies this
      ensures View() == Decided(old(View()), decision)
    {
      activePermissionIndex := Clamp(activePermissionIndex, |pendingPermissions|);
      var id := pendingPermissions[activePermissionIndex].requestId;
      pendingActions := pendingActions + [ResolvePermission(id, decision)];
    }

    method EmitSubmitOnEnter(value: string, tokens: seq<Token>)
      modifies this
      ensures View() == Submitted(old(View()), value, tokens)
    {
      var content := Sse.Trim(value);
      if content == "" && |tokens| == 0 {
        if |pendingPermissions| > 0 {
          activePermissionIndex := Clamp(activePermissionIndex, |pendingPermissions|);
          ResolveActivePermission(DecisionFor(pendingPermissions[activePermissionIndex].selectedAction));
          return;
        }
        if !streaming && (|queuedSubmissions| > 0 || |pendingSubmissions| > 0) {
          ReleaseQueuedSubmission();
        }
        return;
      }
      if |content| > 1 && content[0] == '/' && |tokens| == 0 {
        pendingActions := pendingActions + [RunHostCommand(content)];
        return;
      }
      if streaming || |queuedSubmissions| > 0 || |pendingSubmissions| > 0 {
        EnqueueSubmission(content, tokens);
        if !streaming {
          ReleaseQueuedSubmission();
        }
        return;
      }
      BeginSubmission(content, [], tokens, Direct);
    }

    method PressKey(k: Key)
      modifies this
      ensures View() == Pressed(old(View()), k)
    {
      match k {
        case Enter(value, tokens) => EmitSubmitOnEnter(value, tokens);
        case Escape =>
          if streaming {
            if interruptArmed {
              pendingActions := pendingActions + [InterruptRun(activeRunId)];
              interruptArmed := false;
            } else {
              interruptArmed := true;
            }
          }
        case SelectAction(delta) =>
          if |pendingPermissions| > 0 {
            activePermissionIndex := Clamp(activePermissionIndex, |pendingPermissions|);
            var p := pendingPermissions[activePermissionIndex];
            pendingPermissions := pendingPermissions[activePermissionIndex := p.(
              selectedAction := ClampAction(p.selectedAction + delta))];
          }
        case SelectPermission(delta) =>
          if |pendingPermissions| >= 2 {
            activePermissionIndex := Clamp(activePermissionIndex + delta, |pendingPermissions|);
          }
        case Shortcut(approve) =>
          if |pendingPermissions| > 0 {
            ResolveActivePermission(if approve then ApproveOnce else Deny);
          }
      }
    }
  }
}
