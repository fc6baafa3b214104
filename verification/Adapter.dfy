/**
 The adapter between runtime and shell (internal/harnesshost/adapter.go): it holds text deltas back
 while a permission is pending, keeps apart those of detached runs, and replays both.
 */
module Adapter {
  import opened Wrappers
  import opened Shell

  datatype Delta = Delta(runId: string, text: string)

  datatype Message =
    | Accepted(submissionId: string, runId: string, runLabel: string)  // the adapter's own accept message
    | FromHost(event: HostEvent)
    | FromUser(key: Key)
    | FromShell(action: Action)                                         // dispatched to the runtime

  /** The adapter as a value. */
  datatype State = State(shell: Shell, submissionToRun: map<string, string>, runToSubmission: map<string, string>,
                         attached: string, pending: set<string>, buffer: seq<Delta>,
                         detached: map<string, seq<Delta>>)

  function Waiting(detached: map<string, seq<Delta>>, runId: string): seq<Delta> {
    if runId in detached then detached[runId] else []
  }

  /** The shell after these deltas, in order. */
  function Replayed(s: Shell, ds: seq<Delta>): Shell {
    if ds == [] then s
    else Applied(Replayed(s, ds[..|ds| - 1]), RunDelta(ds[|ds| - 1].runId, ds[|ds| - 1].text))
  }

  predicate Detached(a: State, runId: string) {
    runId != "" && runId != a.attached
  }

  /** The deltas a host event makes the adapter pass to the shell. */
  function Delivered(a: State, e: HostEvent): seq<Delta> {
    match e
    case RunStarted(_, run) => if run == "" then [] else Waiting(a.detached, run)
    case PermissionResolved(id, _) => if a.pending - {id} == {} then a.buffer else []
    case RunDelta(run, text) => if a.pending != {} || Detached(a, run) then [] else [Delta(run, text)]
    case _ => []
  }

  function NextAttached(a: State, e: HostEvent): string {
    match e
    case SubmissionAccepted(_, run) => if run != "" then run else a.attached
    case RunStarted(_, run) => if run != "" then run else a.attached
    case RunCompleted(run) => if run == a.attached then "" else a.attached
    case RunStopped(run) => if run == a.attached then "" else a.attached
    case RunFailed(run) => if run == a.attached then "" else a.attached
    case _ => a.attached
  }

  function NextPending(a: State, e: HostEvent): set<string> {
    match e
    case PermissionRequested(id, _) => if id == "" then a.pending else a.pending + {id}
    case PermissionResolved(id, _) => a.pending - {id}
    case _ => a.pending
  }

  function NextBuffer(a: State, e: HostEvent): seq<Delta> {
    match e
    case PermissionResolved(id, _) => if a.pending - {id} == {} then [] else a.buffer
    case RunDelta(run, text) => if a.pending != {} then a.buffer + [Delta(run, text)] else a.buffer
    case _ => a.buffer
  }

  function NextDetached(a: State, e: HostEvent): map<string, seq<Delta>> {
    match e
    case RunStarted(_, run) => if run != "" && |Waiting(a.detached, run)| > 0 then a.detached - {run} else a.detached
    case RunDelta(run, text) =>
      if a.pending == {} && Detached(a, run) then a.detached[run := Waiting(a.detached, run) + [Delta(run, text)]]
      else a.detached
    case _ => a.detached
  }

  /** A host event through the pause and the detached transcripts; a delta only if it is delivered. */
  function Forwarded(a: State, e: HostEvent): State {
    a.(shell := Replayed(if e.RunDelta? then a.shell else Applied(a.shell, e), Delivered(a, e)),
    attached := NextAttached(a, e), pending := NextPending(a, e), buffer := NextBuffer(a, e),
    detached := NextDetached(a, e))
  }

  function Updated(a: State, m: Message): State {
    match m
    case Accepted(sub, run, _) =>
      Forwarded(a.(submissionToRun := a.submissionToRun[sub := run], runToSubmission := a.runToSubmission[run := sub],
                attached := run),
                SubmissionAccepted(sub, run))
    case FromHost(e) => Forwarded(a, e)
    case FromUser(k) => a.(shell := Pressed(a.shell, k))
    case FromShell(_) => a
  }

  class Adapter {
    const shell: ShellState
    var submissionToRun: map<string, string>
    var runToSubmission: map<string, string>
    var attachedRunID: string
    var pendingPermissions: set<string>
    var pauseBuffer: seq<Delta>
    var detachedTranscripts: map<string, seq<Delta>>

    function View(): State
      reads this, shell
    {
      State(shell.View(), submissionToRun, runToSubmission, attachedRunID, pendingPermissions, pauseBuffer,
            detachedTranscripts)
    }

    constructor (shell: ShellState)
      ensures this.shell == shell
      ensures View() == State(shell.View(), map[], map[], "", {}, [], map[])
    {
      this.shell := shell;
      submissionToRun, runToSubmission, attachedRunID := map[], map[], "";
      pendingPermissions, pauseBuffer, detachedTranscripts := {}, [], map[];
    }

    /** Replays deltas into the shell in order. */
    method Replay(ds: seq<Delta>)
      modifies shell
      ensures shell.View() == Replayed(old(shell.View()), ds)
    {
      for i := 0 to |ds|
        invariant shell.View() == Replayed(old(shell.View()), ds[..i])
      {
        assert ds[..i + 1][..i] == ds[..i];
        shell.ApplyHostEvent(RunDelta(ds[i].runId, ds[i].text));
      }
      assert ds[..|ds|] == ds;
    }

    method ForwardStarted(submissionId: string, runId: string)
      modifies this, shell
      ensures View() == Forwarded(old(View()), RunStarted(submissionId, runId))
    {
      if runId != "" {
        attachedRunID := runId;
      }
      shell.ApplyHostEvent(RunStarted(submissionId, runId));
      if runId != "" && |Waiting(detachedTranscripts, runId)| > 0 {
        Replay(detachedTranscripts[runId]);
        detachedTranscripts := detachedTranscripts - {runId};
      }
    }

    method ForwardResolved(requestId: string, outcome: PermissionOutcome)
      modifies this, shell
      ensures View() == Forwarded(old(View()), PermissionResolved(requestId, outcome))
    {
      pendingPermissions := pendingPermissions - {requestId};
      shell.ApplyHostEvent(PermissionResolved(requestId, outcome));
      if pendingPermissions == {} && |pauseBuffer| > 0 {
        Replay(pauseBuffer);
        pauseBuffer := [];
      }
    }

    method ForwardDelta(runId: string, text: string)
      modifies this, shell
      ensures View() == Forwarded(old(View()), RunDelta(runId, text))
    {
      if pendingPermissions != {} {
        pauseBuffer := pauseBuffer + [Delta(runId, text)];
        return;
      }
      if runId != "" && attachedRunID != "" && runId != attachedRunID {
        detachedTranscripts := detachedTranscripts[runId := Waiting(detachedTranscripts, runId) + [Delta(runId, text)]];
        return;
      }
      if runId != "" && attachedRunID == "" {
        detachedTranscripts := detachedTranscripts[runId := Waiting(detachedTranscripts, runId) + [Delta(runId, text)]];
        return;
      }
      Replay([Delta(runId, text)]);
    }

    method ForwardOther(e: HostEvent)
      requires !e.RunStarted? && !e.PermissionResolved? && !e.RunDelta?
      modifies this, shell
      ensures View() == Forwarded(old(View()), e)
    {
      match e {
        case SubmissionAccepted(_, run) =>
          if run != "" {
            attachedRunID := run;
          }
        case PermissionRequested(id, _) =>
          if id != "" {
            pendingPermissions := pendingPermissions + {id};
          }
        case RunCompleted(run) =>
          if run == attachedRunID {
            attachedRunID := "";
          }
        case RunStopped(run) =>
          if run == attachedRunID {
            attachedRunID := "";
          }
        case RunFailed(run) =>
          if run == attachedRunID {
            attachedRunID := "";
          }
        case _ =>
      }
      shell.ApplyHostEvent(e);
    }

    method ForwardEvent(e: HostEvent)
      modifies this, shell
      ensures View() == Forwarded(old(View()), e)
    {
      match e {
        case RunStarted(sub, run) => ForwardStarted(sub, run);
        case PermissionResolved(id, outcome) => ForwardResolved(id, outcome);
        case RunDelta(run, text) => ForwardDelta(run, text);
        case _ => ForwardOther(e);
      }
    }

    /** One message; an accepted submission with a label also yields a start event for the next round. */
    method Update(m: Message) returns (next: Option<HostEvent>)
      modifies this, shell
      ensures View() == Updated(old(View()), m)
      ensures next == if m.Accepted? && m.runLabel != "" then Some(RunStarted(m.submissionId, m.runId)) else None
    {
      next := None;
      match m {
        case Accepted(sub, run, runLabel) =>
          submissionToRun := submissionToRun[sub := run];
          runToSubmission := runToSubmission[run := sub];
          attachedRunID := run;
          ForwardEvent(SubmissionAccepted(sub, run));
          if runLabel != "" {
            next := Some(RunStarted(sub, run));
          }
        case FromHost(e) => ForwardEvent(e);
        case FromUser(k) => shell.PressKey(k);
        case FromShell(_) =>
      }
    }
  }
}
