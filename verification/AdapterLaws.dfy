/** What the adapter guarantees: no delta is lost or doubled, and a pause does not show in the text. */
module AdapterLaws {
  import opened Shell
  import opened Adapter
  import opened RowLaws

  function Ran(a: State, ms: seq<Message>): State {
    if ms == [] then a else Updated(Ran(a, ms[..|ms| - 1]), ms[|ms| - 1])
  }

  function Received(m: Message): seq<Delta> {
    match m
    case FromHost(RunDelta(run, text)) => [Delta(run, text)]
    case _ => []
  }

  function AllReceived(ms: seq<Message>): seq<Delta> {
    if ms == [] then [] else AllReceived(ms[..|ms| - 1]) + Received(ms[|ms| - 1])
  }

  function StepDelivered(a: State, m: Message): seq<Delta> {
    match m
    case FromHost(e) => Delivered(a, e)
    case _ => []
  }

  /** Every delta passed to the shell, in order. */
  function AllDelivered(a: State, ms: seq<Message>): seq<Delta> {
    if ms == [] then []
    else AllDelivered(a, ms[..|ms| - 1]) + StepDelivered(Ran(a, ms[..|ms| - 1]), ms[|ms| - 1])
  }

  // ---------------------------------------------------------------- conservation

  /** A detached transcript holds deltas of its own run; deltas are held back only during a pause. */
  ghost predicate Valid(a: State) {
    (forall run, d :: run in a.detached && d in a.detached[run] ==> d.runId == run)
    && (a.pending == {} ==> a.buffer == [])
  }

  function Copies(ds: seq<Delta>, d: Delta): nat {
    multiset(ds)[d]
  }

  /** How often a delta is held back: in the pause buffer or in its run's detached transcript. */
  function HeldBack(a: State, d: Delta): nat {
    Copies(a.buffer, d) + Copies(Waiting(a.detached, d.runId), d)
  }

  lemma WaitingIsHome(a: State, run: string, d: Delta)
    requires Valid(a) && d.runId != run
    ensures Copies(Waiting(a.detached, run), d) == 0
  {
    if d in Waiting(a.detached, run) {
      assert false;
    }
  }

  lemma StartConserves(a: State, submissionId: string, run: string, d: Delta)
    requires Valid(a)
    ensures var e := RunStarted(submissionId, run);
            Valid(Forwarded(a, e))
            && Copies(Delivered(a, e), d) + HeldBack(Forwarded(a, e), d) == HeldBack(a, d)
  {
    if d.runId != run && run in a.detached {
      WaitingIsHome(a, run, d);
    }
  }

  lemma DeltaConserves(a: State, run: string, text: string, d: Delta)
    requires Valid(a)
    ensures var e := RunDelta(run, text);
            Valid(Forwarded(a, e))
            && Copies(Delivered(a, e), d) + HeldBack(Forwarded(a, e), d)
               == Copies([Delta(run, text)], d) + HeldBack(a, d)
  {
  }

  lemma OtherConserves(a: State, e: HostEvent, d: Delta)
    requires Valid(a) && !e.RunStarted? && !e.RunDelta?
    ensures Valid(Forwarded(a, e))
    ensures Copies(Delivered(a, e), d) + HeldBack(Forwarded(a, e), d) == HeldBack(a, d)
  {
  }

  lemma StepConserves(a: State, m: Message, d: Delta)
    requires Valid(a)
    ensures Valid(Updated(a, m))
    ensures Copies(StepDelivered(a, m), d) + HeldBack(Updated(a, m), d) == Copies(Received(m), d) + HeldBack(a, d)
  {
    match m
    case Accepted(sub, run, _) => OtherConserves(a, SubmissionAccepted(sub, run), d);
    case FromUser(_) =>
    case FromShell(_) =>
    case FromHost(e) =>
      if e.RunStarted? {
        StartConserves(a, e.submissionId, e.runId, d);
      } else if e.RunDelta? {
        DeltaConserves(a, e.runId, e.delta, d);
      } else {
        OtherConserves(a, e, d);
      }
  }

  /**
   Delta conservation. Over every run of messages each delta received is in exactly one place:
   delivered to the shell, in the pause buffer, or in its run's detached transcript.
   */
  lemma {:induction false} DeltaConservation(a: State, ms: seq<Message>, d: Delta)
    requires Valid(a)
    ensures Valid(Ran(a, ms))
    ensures Copies(AllDelivered(a, ms), d) + HeldBack(Ran(a, ms), d) == Copies(AllReceived(ms), d) + HeldBack(a, d)
  {
    if ms != [] {
      DeltaConservation(a, ms[..|ms| - 1], d);
      StepConserves(Ran(a, ms[..|ms| - 1]), ms[|ms| - 1], d);
    }
  }

  // ---------------------------------------------------------------- the pause has its prompt

  function PendingIds(ps: seq<Pending>): set<string> {
    set p | p in ps :: p.requestId
  }

  lemma {:induction false} ReplayKeepsPermissions(s: Shell, ds: seq<Delta>)
    ensures Replayed(s, ds).permissions == s.permissions && Replayed(s, ds).activePermission == s.activePermission
  {
    if ds != [] {
      ReplayKeepsPermissions(s, ds[..|ds| - 1]);
    }
  }

  lemma {:induction false} RemoveKeepsOthers(ps: seq<Pending>, id: string)
    ensures forall p :: p in ps && p.requestId != id ==> p in RemovePending(ps, id)
  {
    if ps != [] {
      RemoveKeepsOthers(ps[1..], id);
      assert ps == [ps[0]] + ps[1..];
    }
  }

  lemma RemoveKeepsIds(ps: seq<Pending>, id: string)
    ensures PendingIds(ps) - {id} <= PendingIds(RemovePending(ps, id))
  {
    RemoveKeepsOthers(ps, id);
    forall other | other in PendingIds(ps) - {id} ensures other in PendingIds(RemovePending(ps, id)) {
      var p :| p in ps && p.requestId == other;
      assert p in RemovePending(ps, id);
    }
  }

  lemma EventKeepsPermissions(s: Shell, e: HostEvent)
    requires !e.PermissionRequested? && !e.PermissionResolved?
    ensures Applied(s, e).permissions == s.permissions && Applied(s, e).activePermission == s.activePermission
  {
  }

  lemma KeyKeepsPermissions(s: Shell, k: Key)
    ensures PendingIds(Pressed(s, k).permissions) == PendingIds(s.permissions)
  {
    if k.SelectAction? && s.permissions != [] {
      var i := Clamp(s.activePermission, |s.permissions|);
      var ps := Pressed(s, k).permissions;
      assert forall j :: 0 <= j < |ps| ==> ps[j].requestId == s.permissions[j].requestId;
      assert forall p :: p in ps ==> p.requestId in PendingIds(s.permissions);
      forall p | p in s.permissions ensures p.requestId in PendingIds(ps) {
        var j :| 0 <= j < |s.permissions| && s.permissions[j] == p;
        assert ps[j] in ps;
      }
    }
  }

  /** The shell shows a prompt for every permission the adapter pauses on. */
  ghost predicate Prompted(a: State) {
    a.pending <= PendingIds(a.shell.permissions)
  }

  lemma StepPrompts(a: State, m: Message)
    requires Prompted(a)
    ensures Prompted(Updated(a, m))
  {
    match m
    case Accepted(sub, run, _) => EventKeepsPermissions(a.shell, SubmissionAccepted(sub, run));
    case FromUser(k) => KeyKeepsPermissions(a.shell, k);
    case FromShell(_) =>
    case FromHost(e) =>
      ReplayKeepsPermissions(if e.RunDelta? then a.shell else Applied(a.shell, e), Delivered(a, e));
      match e {
        case PermissionRequested(id, summary) =>
          var ps := a.shell.permissions;
          assert forall p :: p in ps ==> p in ps + [Pending(id, 0)];
          assert Pending(id, 0) in ps + [Pending(id, 0)];
        case PermissionResolved(id, _) => RemoveKeepsIds(a.shell.permissions, id);
        case _ => EventKeepsPermissions(a.shell, e);
      }
  }

  /** In every run from a prompted state, a pause always has a prompt that can end it. */
  lemma {:induction false} PauseHasPrompt(a: State, ms: seq<Message>)
    requires Prompted(a)
    ensures Prompted(Ran(a, ms))
    ensures Ran(a, ms).pending != {} ==> Ran(a, ms).shell.permissions != []
  {
    if ms != [] {
      PauseHasPrompt(a, ms[..|ms| - 1]);
      StepPrompts(Ran(a, ms[..|ms| - 1]), ms[|ms| - 1]);
    }
    var end := Ran(a, ms);
    if end.pending != {} {
      var id :| id in end.pending;
      assert id in PendingIds(end.shell.permissions);
    }
  }

  // ---------------------------------------------------------------- pausing is invisible

  /** The text of a run's deltas. */
  function TextFor(ds: seq<Delta>, run: string): string {
    if ds == [] then ""
    else TextFor(ds[..|ds| - 1], run) + if ds[|ds| - 1].runId == run then ds[|ds| - 1].text else ""
  }

  lemma {:induction false} TextOfConcat(a: seq<Delta>, b: seq<Delta>, run: string)
    ensures TextFor(a + b, run) == TextFor(a, run) + TextFor(b, run)
  {
    if b == [] {
      assert a + b == a;
    } else {
      assert (a + b)[..|a + b| - 1] == a + b[..|b| - 1];
      TextOfConcat(a, b[..|b| - 1], run);
    }
  }

  lemma TextOfOne(d: Delta, run: string)
    ensures TextFor([d], run) == if d.runId == run then d.text else ""
  {
    assert [d][..0] == [];
  }

  ghost predicate Named(ds: seq<Delta>) {
    forall d :: d in ds ==> d.runId != ""
  }

  lemma {:induction false} ReplayGrowsRow(s: Shell, ds: seq<Delta>, run: string, own: string)
    requires run != "" && HasRow(s.rows, run) && Clean(s.rows, run, own) && Named(ds)
    ensures var rows := Replayed(s, ds).rows;
            HasRow(rows, run) && Clean(rows, run, own)
            && RunRow(rows, run) == RunRow(s.rows, run).(text := RunRow(s.rows, run).text + TextFor(ds, run))
  {
    if ds == [] {
      assert RunRow(s.rows, run).text + "" == RunRow(s.rows, run).text;
    } else {
      var init, last := ds[..|ds| - 1], ds[|ds| - 1];
      assert last in ds;
      ReplayGrowsRow(s, init, run, own);
      var rows := Replayed(s, init).rows;
      if last.runId == run {
        DeltaGrowsRow(rows, last.text, run, own);
        assert RunRow(s.rows, run).text + TextFor(init, run) + last.text ==
               RunRow(s.rows, run).text + TextFor(ds, run);
      } else {
        DeltaKeepsRow(rows, last.runId, last.text, run, own);
      }
    }
  }

  /** The run is attached and its row open, the first of its submission. */
  ghost predicate Attached(a: State, run: string, own: string) {
    run != "" && a.attached == run && HasRow(a.shell.rows, run)
    && RunRow(a.shell.rows, run).submissionId == own && Clean(a.shell.rows, run, own)
    && Named(a.buffer) && (a.pending == {} ==> a.buffer == [])
  }

  /** Attached, with nothing left in a detached transcript. */
  ghost predicate Live(a: State, run: string, own: string) {
    Attached(a, run, own) && Waiting(a.detached, run) == []
  }

  /** A correlation that names the run under its own submission, or under none. */
  predicate OwnName(submissionId: string, runId: string, run: string, own: string) {
    runId == run && (submissionId == "" || submissionId == own)
  }

  /**
   Messages that leave the run attached: anything the user and the shell do, permissions,
   information, deltas of any run, the run's own acceptance and start, and the life of other runs
   and submissions.
   */
  predicate Calm(m: Message, run: string, own: string) {
    match m
    case Accepted(sub, other, _) => OwnName(sub, other, run, own)
    case FromUser(_) => true
    case FromShell(_) => true
    case FromHost(e) =>
      match e
      case SubmissionAccepted(sub, other) => other == "" || OwnName(sub, other, run, own)
      case SubmissionFailed(sub) => sub != own
      case RunStarted(sub, other) => other == "" || OwnName(sub, other, run, own)
      case RunDelta(other, _) => other != ""
      case RunCompleted(other) => other != "" && other != run
      case RunStopped(other) => other != "" && other != run
      case RunFailed(other) => other != "" && other != run
      case TranscriptClear => false
      case _ => true
  }

  /** What the user will have read of the run: its row, then what the pause holds back. */
  ghost function Shown(a: State, run: string): string
    requires HasRow(a.shell.rows, run)
  {
    RunRow(a.shell.rows, run).text + TextFor(a.buffer, run)
  }

  lemma NamingKeepsRow(s: Shell, sub: string, run: string, own: string)
    requires run != "" && HasRow(s.rows, run) && Clean(s.rows, run, own) && RunRow(s.rows, run).submissionId == own
    requires sub == "" || sub == own
    ensures Correlate(s.rows, sub, run) == s.rows && Started(s, sub, run).rows == s.rows
  {
    CorrelateKeepsRow(s.rows, run, own);
    assert RowIndexFor(s.rows, run) == FirstRow(s.rows, run);
  }

  lemma CalmEventKeepsRow(s: Shell, e: HostEvent, run: string, own: string)
    requires run != "" && HasRow(s.rows, run) && Clean(s.rows, run, own) && RunRow(s.rows, run).submissionId == own
    requires Calm(FromHost(e), run, own) && !e.RunDelta?
    ensures KeepsRow(s.rows, Applied(s, e).rows, run, own)
  {
    match e
    case SubmissionAccepted(sub, other) =>
      if other != "" {
        NamingKeepsRow(s, sub, run, own);
      }
    case SubmissionFailed(sub) => WithoutKeepsRow(s.rows, sub, run, own);
    case RunStarted(sub, other) =>
      if other != "" {
        NamingKeepsRow(s, sub, run, own);
      }
    case RunCompleted(other) => EndKeepsRow(s.rows, other, run, own); ReleasedKeepsRow(Ended(s, other), run, own);
    case RunStopped(other) => EndKeepsRow(s.rows, other, run, own);
    case RunFailed(other) => EndKeepsRow(s.rows, other, run, own);
    case PermissionRequested(id, summary) =>
      AppendKeepsRow(
        s.rows, [BLANK.(role := EventRow, text := summary, requestId := id, status := "requested")], run, own);
    case PermissionResolved(id, outcome) => MarkKeepsRow(s.rows, id, StatusFor(outcome), run, own);
    case HostInfo(text) => AppendKeepsRow(s.rows, [BLANK.(text := text)], run, own);
    case _ =>
  }

  lemma BufferedShows(a: State, d: Delta, run: string, own: string)
    requires Live(a, run, own) && d.runId != "" && a.pending != {}
    ensures var next := a.(buffer := a.buffer + [d]);
            Live(next, run, own) && Shown(next, run) == Shown(a, run) + TextFor([d], run)
  {
    TextOfConcat(a.buffer, [d], run);
    var row := RunRow(a.shell.rows, run).text;
    assert (row + TextFor(a.buffer, run)) + TextFor([d], run) == row + (TextFor(a.buffer, run) + TextFor([d], run));
  }

  lemma DeliveredShows(a: State, d: Delta, run: string, own: string)
    requires Live(a, run, own) && d.runId != "" && a.pending == {}
    ensures var next := a.(shell := Replayed(a.shell, [d]));
            Live(next, run, own) && Shown(next, run) == Shown(a, run) + TextFor([d], run)
  {
    ReplayGrowsRow(a.shell, [d], run, own);
    var row := RunRow(a.shell.rows, run).text;
    assert row + "" == row && (row + TextFor([d], run)) + "" == row + TextFor([d], run);
  }

  lemma CalmDelta(a: State, other: string, text: string, run: string, own: string)
    requires Live(a, run, own) && other != ""
    ensures var next := Forwarded(a, RunDelta(other, text));
            Live(next, run, own) && Shown(next, run) == Shown(a, run) + TextFor([Delta(other, text)], run)
  {
    var d, next := Delta(other, text), Forwarded(a, RunDelta(other, text));
    assert Replayed(a.shell, []) == a.shell;
    if a.pending != {} {
      BufferedShows(a, d, run, own);
      assert next == a.(buffer := a.buffer + [d]);
    } else if other == run {
      DeliveredShows(a, d, run, own);
      assert next == a.(shell := Replayed(a.shell, [d]));
    } else {
      TextOfOne(d, run);
      assert next == a.(detached := a.detached[other := Waiting(a.detached, other) + [d]]);
      assert Shown(a, run) + "" == Shown(a, run);
    }
  }

  lemma CalmResolve(a: State, id: string, outcome: PermissionOutcome, run: string, own: string)
    requires Live(a, run, own)
    ensures var next := Forwarded(a, PermissionResolved(id, outcome));
            Live(next, run, own) && Shown(next, run) == Shown(a, run)
  {
    var e := PermissionResolved(id, outcome);
    CalmEventKeepsRow(a.shell, e, run, own);
    ReplayGrowsRow(Applied(a.shell, e), Delivered(a, e), run, own);
  }

  lemma CalmOther(a: State, e: HostEvent, run: string, own: string)
    requires Live(a, run, own) && Calm(FromHost(e), run, own)
    requires !e.RunDelta? && !e.PermissionResolved?
    ensures var next := Forwarded(a, e);
            Live(next, run, own) && Shown(next, run) == Shown(a, run)
  {
    CalmEventKeepsRow(a.shell, e, run, own);
    assert Delivered(a, e) == [];
    assert Replayed(Applied(a.shell, e), []) == Applied(a.shell, e);
  }

  lemma CalmAccepted(a: State, m: Message, run: string, own: string)
    requires Live(a, run, own) && m.Accepted? && Calm(m, run, own)
    ensures Live(Updated(a, m), run, own) && Shown(Updated(a, m), run) == Shown(a, run)
  {
    CalmOther(a, SubmissionAccepted(m.submissionId, run), run, own);
    var b := a.(submissionToRun := a.submissionToRun[m.submissionId := run],
             runToSubmission := a.runToSubmission[run := m.submissionId]);
    assert Updated(a, m) == Forwarded(b, SubmissionAccepted(m.submissionId, run));
  }

  lemma CalmStep(a: State, m: Message, run: string, own: string)
    requires Live(a, run, own) && Calm(m, run, own)
    ensures Live(Updated(a, m), run, own)
    ensures Shown(Updated(a, m), run) == Shown(a, run) + TextFor(Received(m), run)
  {
    if m.FromShell? {
      assert Shown(a, run) + "" == Shown(a, run);
    } else if m.FromUser? {
      KeyKeepsRow(a.shell, m.key, run, own);
    } else if m.Accepted? {
      CalmAccepted(a, m, run, own);
    } else if m.event.RunDelta? {
      CalmDelta(a, m.event.runId, m.event.delta, run, own);
    } else if m.event.PermissionResolved? {
      CalmResolve(a, m.event.requestId, m.event.outcome, run, own);
    } else {
      CalmOther(a, m.event, run, own);
    }
  }

  lemma TextAdds(start: string, received: seq<Delta>, more: seq<Delta>, run: string)
    ensures (start + TextFor(received, run)) + TextFor(more, run) == start + TextFor(received + more, run)
  {
    TextOfConcat(received, more, run);
  }

  lemma CalmStepAdds(a: State, m: Message, run: string, own: string, start: string, received: seq<Delta>)
    requires Live(a, run, own) && Calm(m, run, own)
    requires Shown(a, run) == start + TextFor(received, run)
    ensures Live(Updated(a, m), run, own)
    ensures Shown(Updated(a, m), run) == start + TextFor(received + Received(m), run)
  {
    CalmStep(a, m, run, own);
    TextAdds(start, received, Received(m), run);
  }

  /**
   Pausing is invisible. Through any interleaving of calm messages, the text of a live run's row
   followed by what is buffered for it is its text at the start followed by its deltas in arrival order.
   */
  lemma {:induction false} PausingIsInvisible(a: State, ms: seq<Message>, run: string, own: string)
    requires Live(a, run, own) && forall m :: m in ms ==> Calm(m, run, own)
    ensures Live(Ran(a, ms), run, own)
    ensures Shown(Ran(a, ms), run) == Shown(a, run) + TextFor(AllReceived(ms), run)
  {
    if ms == [] {
      assert Shown(a, run) + "" == Shown(a, run);
    } else {
      var init, last := ms[..|ms| - 1], ms[|ms| - 1];
      assert last in ms;
      PausingIsInvisible(a, init, run, own);
      CalmStepAdds(Ran(a, init), last, run, own, Shown(a, run), AllReceived(init));
    }
  }

  /** With no permission pending nothing is held back: the row itself has the whole text. */
  lemma RowIsWhole(a: State, ms: seq<Message>, run: string, own: string)
    requires Live(a, run, own) && forall m :: m in ms ==> Calm(m, run, own)
    requires Ran(a, ms).pending == {}
    ensures HasRow(Ran(a, ms).shell.rows, run)
    ensures RunRow(Ran(a, ms).shell.rows, run).text == Shown(a, run) + TextFor(AllReceived(ms), run)
  {
    PausingIsInvisible(a, ms, run, own);
    var text := RunRow(Ran(a, ms).shell.rows, run).text;
    assert text + "" == text;
  }

  predicate AboutPermission(m: Message) {
    m.FromHost? && (m.event.PermissionRequested? || m.event.PermissionResolved?)
  }

  /** The same messages without the permission events. */
  function Unpaused(ms: seq<Message>): seq<Message> {
    if ms == [] then []
    else Unpaused(ms[..|ms| - 1]) + if AboutPermission(ms[|ms| - 1]) then [] else [ms[|ms| - 1]]
  }

  lemma ReceivedOfSnoc(ms: seq<Message>, m: Message)
    ensures AllReceived(ms + [m]) == AllReceived(ms) + Received(m)
  {
    assert (ms + [m])[..|ms|] == ms;
  }

  lemma {:induction false} UnpausedReceives(ms: seq<Message>)
    ensures AllReceived(Unpaused(ms)) == AllReceived(ms)
  {
    if ms != [] {
      var init, last := ms[..|ms| - 1], ms[|ms| - 1];
      UnpausedReceives(init);
      if AboutPermission(last) {
        assert Unpaused(ms) == Unpaused(init);
        assert AllReceived(init) + [] == AllReceived(init);
      } else {
        ReceivedOfSnoc(Unpaused(init), last);
      }
    }
  }

  lemma {:induction false} UnpausedSelects(ms: seq<Message>)
    ensures forall m :: m in Unpaused(ms) ==> m in ms
  {
    if ms != [] {
      UnpausedSelects(ms[..|ms| - 1]);
      assert ms == ms[..|ms| - 1] + [ms[|ms| - 1]];
    }
  }

  lemma {:induction false} UnpausedNeverPauses(a: State, ms: seq<Message>)
    requires a.pending == {} && forall m :: m in ms ==> !AboutPermission(m)
    ensures Ran(a, ms).pending == {}
  {
    if ms != [] {
      var init, last := ms[..|ms| - 1], ms[|ms| - 1];
      assert last in ms;
      UnpausedNeverPauses(a, init);
      assert Updated(Ran(a, init), last).pending == Ran(a, init).pending;
    }
  }

  lemma {:induction false} UnpausedHasNoPermissions(ms: seq<Message>)
    ensures forall m :: m in Unpaused(ms) ==> !AboutPermission(m)
  {
    if ms != [] {
      UnpausedHasNoPermissions(ms[..|ms| - 1]);
    }
  }

  /** Once every permission is resolved, the row reads as if none had been asked. */
  lemma SameAsUnpaused(a: State, ms: seq<Message>, run: string, own: string)
    requires Live(a, run, own) && forall m :: m in ms ==> Calm(m, run, own)
    requires a.pending == {} && Ran(a, ms).pending == {}
    ensures HasRow(Ran(a, ms).shell.rows, run) && HasRow(Ran(a, Unpaused(ms)).shell.rows, run)
    ensures RunRow(Ran(a, ms).shell.rows, run).text == RunRow(Ran(a, Unpaused(ms)).shell.rows, run).text
  {
    UnpausedReceives(ms);
    UnpausedSelects(ms);
    UnpausedHasNoPermissions(ms);
    UnpausedNeverPauses(a, Unpaused(ms));
    RowIsWhole(a, ms, run, own);
    RowIsWhole(a, Unpaused(ms), run, own);
  }
}
