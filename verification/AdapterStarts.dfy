/** How a run comes to be shown, and stops being: starts and ends from any state, and what a pause holds. */
module AdapterStarts {
  import opened Shell
  import opened Adapter
  import opened RowLaws
  import opened AdapterLaws
  import opened AdapterOrder

  // ---------------------------------------------------------------- the row of a start

  /** The first assistant row of a submission is open. */
  ghost predicate OpenPlaceholder(rows: seq<Row>, sub: string) {
    exists k :: 0 <= k < |rows| && IsPlaceholder(rows[k], sub) && rows[k].streaming
                && forall j :: 0 <= j < k ==> !IsPlaceholder(rows[j], sub)
  }

  lemma {:induction false} FirstPlaceholder(rows: seq<Row>, sub: string) returns (k: nat)
    ensures k <= |rows| && (k < |rows| ==> IsPlaceholder(rows[k], sub))
    ensures forall j :: 0 <= j < k ==> !IsPlaceholder(rows[j], sub)
  {
    if rows == [] || IsPlaceholder(rows[0], sub) {
      k := 0;
    } else {
      k := FirstPlaceholder(rows[1..], sub);
      k := k + 1;
    }
  }

  lemma HasRowExactly(rows: seq<Row>, run: string)
    ensures HasRow(rows, run) <==> exists k :: 0 <= k < |rows| && Carries(rows[k], run)
  {
    NoneBeforeFirst(rows, run);
    if HasRow(rows, run) {
      assert Carries(rows[FirstRow(rows, run)], run);
    }
  }

  lemma CorrelatedHasRow(rows: seq<Row>, sub: string, run: string)
    requires sub != ""
    ensures HasRow(Correlate(rows, sub, run), run) <==> HasRow(rows, run) || OpenPlaceholder(rows, sub)
  {
    var k := FirstPlaceholder(rows, sub);
    CorrelateAt(rows, k, sub, run);
    var next := Correlate(rows, sub, run);
    HasRowExactly(rows, run);
    HasRowExactly(next, run);
    if HasRow(rows, run) {
      assert Carries(next[FirstRow(rows, run)], run);
    } else if k < |rows| && rows[k].streaming {
      assert Carries(next[k], run);
    }
  }

  /** A start finds a row of the run, correlates the open one of its submission, or opens one. */
  ghost predicate GetsRow(rows: seq<Row>, sub: string, run: string) {
    HasRow(rows, run) || (if sub != "" then OpenPlaceholder(rows, sub) else LastRow(rows, false) < 0)
  }

  lemma StartedHasRow(s: Shell, sub: string, run: string)
    requires run != ""
    ensures HasRow(Started(s, sub, run).rows, run) <==> GetsRow(s.rows, sub, run)
  {
    if sub != "" {
      CorrelatedHasRow(s.rows, sub, run);
    } else if !HasRow(s.rows, run) && LastRow(s.rows, false) < 0 {
      var newRow := BLANK.(role := Assistant, runId := run, streaming := true);
      NoneCarries(s.rows, run);
      LastIsFirst(s.rows, newRow, run, "");
    }
  }

  // ---------------------------------------------------------------- a start, from any state

  lemma OwnDeltas(a: State, run: string)
    requires Valid(a) && run != ""
    ensures Named(Waiting(a.detached, run)) && forall d :: d in Waiting(a.detached, run) ==> d.runId == run
  {
  }

  lemma StartRuns(a: State, sub: string, run: string)
    requires run != ""
    ensures var next := Updated(a, FromHost(RunStarted(sub, run)));
            next.shell == Replayed(Started(a.shell, sub, run), Waiting(a.detached, run))
            && next.attached == run && next.buffer == a.buffer && next.pending == a.pending
            && Waiting(next.detached, run) == []
  {
    assert Waiting(a.detached, run) == [] || run !in a.detached - {run};
  }

  /**
   Whatever was attached, a start attaches its run and keeps the pause as it was. The run gets a row
   exactly when it has one, its submission's is open, or, without a submission, none waits for a
   run. The row then has its detached text behind what it had, and the run is live in it.
   */
  lemma StartAttaches(a: State, sub: string, run: string)
    requires Valid(a) && Named(a.buffer) && run != ""
    ensures var on, next := Started(a.shell, sub, run), Updated(a, FromHost(RunStarted(sub, run)));
            next.attached == run && next.pending == a.pending && next.buffer == a.buffer
            && (forall other :: other != run ==> Waiting(next.detached, other) == Waiting(a.detached, other))
            && (HasRow(next.shell.rows, run) <==> GetsRow(a.shell.rows, sub, run))
            && (GetsRow(a.shell.rows, sub, run) ==>
                  HasRow(on.rows, run)
                  && RunRow(next.shell.rows, run).text ==
                     RunRow(on.rows, run).text + TextFor(Waiting(a.detached, run), run)
                  && forall own :: RunRow(on.rows, run).submissionId == own && Clean(on.rows, run, own) ==>
                                     Live(next, run, own))
  {
    var on, waited := Started(a.shell, sub, run), Waiting(a.detached, run);
    OwnDeltas(a, run);
    StartRuns(a, sub, run);
    StartedHasRow(a.shell, sub, run);
    if HasRow(on.rows, run) {
      ReplayGrowsRow(on, waited, run, "");
      forall own | RunRow(on.rows, run).submissionId == own && Clean(on.rows, run, own)
        ensures Live(Updated(a, FromHost(RunStarted(sub, run))), run, own)
      {
        ReplayGrowsRow(on, waited, run, own);
      }
    } else {
      ReplayFindsNoRow(on, waited, run);
    }
  }

  lemma ReplayFindsNoRow(s: Shell, ds: seq<Delta>, run: string)
    requires run != "" && !HasRow(s.rows, run) && forall d :: d in ds ==> d.runId == run
    ensures !HasRow(Replayed(s, ds).rows, run)
  {
    StrayTextLands(s, ds);
    var i := LastRow(s.rows, false);
    if i >= 0 {
      TakingTextStays(s.rows, i, s.rows[i].text + AllText(ds), run);
    }
  }

  /** The next delta of the run is then shown in that row, or held by the pause: never detached. */
  lemma StartedDeltaShows(a: State, sub: string, run: string, text: string)
    requires Valid(a) && Named(a.buffer) && run != "" && GetsRow(a.shell.rows, sub, run)
    ensures var next := Updated(a, FromHost(RunStarted(sub, run)));
            var after := Updated(next, FromHost(RunDelta(run, text)));
            HasRow(next.shell.rows, run) && HasRow(after.shell.rows, run)
            && Waiting(after.detached, run) == []
            && (if a.pending == {} then
                  RunRow(after.shell.rows, run).text == RunRow(next.shell.rows, run).text + text
                  && after.buffer == a.buffer
                else after.shell == next.shell && after.buffer == a.buffer + [Delta(run, text)])
  {
    StartAttaches(a, sub, run);
    StartRuns(a, sub, run);
    var next := Updated(a, FromHost(RunStarted(sub, run)));
    if a.pending == {} {
      ReplayGrowsRow(next.shell, [Delta(run, text)], run, "");
      TextOfOne(Delta(run, text), run);
    } else {
      assert Replayed(next.shell, []) == next.shell;
    }
  }

  /**
   A run that the user attaches to: started without a submission while no row waits for a run. It
   gets a new row at the end with all its text so far, and through any calm messages until no
   permission is pending that row has the rest.
   */
  lemma AttachedRunIsWhole(a: State, ms: seq<Message>, run: string)
    requires Valid(a) && Named(a.buffer) && a.pending == {} && run != ""
    requires !HasRow(a.shell.rows, run) && LastRow(a.shell.rows, false) < 0
    requires forall m :: m in ms ==> Calm(m, run, "")
    requires Ran(Updated(a, FromHost(RunStarted("", run))), ms).pending == {}
    ensures var end := Ran(Updated(a, FromHost(RunStarted("", run))), ms);
            HasRow(end.shell.rows, run)
            && RunRow(end.shell.rows, run).text == TextFor(Waiting(a.detached, run) + AllReceived(ms), run)
  {
    var next, waited := Updated(a, FromHost(RunStarted("", run))), Waiting(a.detached, run);
    var newRow := BLANK.(role := Assistant, runId := run, streaming := true);
    StartAttaches(a, "", run);
    NoneCarries(a.shell.rows, run);
    LastIsFirst(a.shell.rows, newRow, run, "");
    assert RunRow(Started(a.shell, "", run).rows, run) == newRow;
    assert "" + TextFor(waited, run) == TextFor(waited, run);
    RowIsWhole(next, ms, run, "");
    assert TextFor(waited, run) + "" == TextFor(waited, run);
    TextOfConcat(waited, AllReceived(ms), run);
  }

  /** A start for a submission whose rows are gone opens none, and the run's text is dropped. */
  lemma StartWithoutRowDropsText(a: State, sub: string, run: string, text: string)
    requires a.shell.rows == [] && a.pending == {} && Waiting(a.detached, run) == [] && sub != "" && run != ""
    ensures var next := Updated(a, FromHost(RunStarted(sub, run)));
            next.attached == run && Updated(next, FromHost(RunDelta(run, text))).shell.rows == []
  {
    StartRuns(a, sub, run);
    var next := Updated(a, FromHost(RunStarted(sub, run)));
    assert next.shell == Started(a.shell, sub, run) && next.shell.rows == [];
    assert [Delta(run, text)][..0] == [];
    assert Replayed(next.shell, [Delta(run, text)]) == Applied(Replayed(next.shell, []), RunDelta(run, text));
  }

  // ---------------------------------------------------------------- an end, from any state

  /**
   The end of the attached run detaches it, another run's end does not; text of an ended run, when
   nothing is pending, is then kept apart and changes nothing that is shown.
   */
  lemma EndDetaches(a: State, e: HostEvent, run: string, text: string)
    requires run != "" && Ends(e, run) && a.pending == {}
    ensures var ended := Updated(a, FromHost(e));
            var after := Updated(ended, FromHost(RunDelta(run, text)));
            ended.attached == (if a.attached == run then "" else a.attached)
            && after.shell == ended.shell
            && Waiting(after.detached, run) == Waiting(a.detached, run) + [Delta(run, text)]
  {
    var ended := Updated(a, FromHost(e));
    assert Replayed(ended.shell, []) == ended.shell;
  }

  // ---------------------------------------------------------------- what a pause holds

  function DeltaMessages(ds: seq<Delta>): seq<Message> {
    if ds == [] then []
    else DeltaMessages(ds[..|ds| - 1]) + [FromHost(RunDelta(ds[|ds| - 1].runId, ds[|ds| - 1].text))]
  }

  lemma HeldDelta(a: State, d: Delta)
    requires a.pending != {}
    ensures Updated(a, FromHost(RunDelta(d.runId, d.text))) == a.(buffer := a.buffer + [d])
  {
    assert Replayed(a.shell, []) == a.shell;
  }

  /** While a permission is pending no text is shown: every delta goes to the buffer, in order. */
  lemma {:induction false} PauseHolds(a: State, ds: seq<Delta>)
    requires a.pending != {}
    ensures Ran(a, DeltaMessages(ds)) == a.(buffer := a.buffer + ds)
  {
    if ds == [] {
      assert a.buffer + [] == a.buffer;
    } else {
      var init, last := ds[..|ds| - 1], ds[|ds| - 1];
      PauseHolds(a, init);
      HeldDelta(a.(buffer := a.buffer + init), last);
      assert (a.buffer + init) + [last] == a.buffer + ds;
    }
  }

  /**
   A permission request starts a pause. Its resolution ends it exactly when no other is pending: then
   the prompt goes first and all that was held follows in order; otherwise everything stays held.
   */
  lemma PauseEnds(a: State, id: string, summary: string, ds: seq<Delta>, outcome: PermissionOutcome)
    requires id != ""
    ensures var asked := Updated(a, FromHost(PermissionRequested(id, summary)));
            var held := Ran(asked, DeltaMessages(ds));
            var next := Updated(held, FromHost(PermissionResolved(id, outcome)));
            held.shell == asked.shell && held.buffer == a.buffer + ds && id in held.pending
            && (if a.pending <= {id} then
                  next.pending == {} && next.buffer == []
                  && next.shell == Replayed(Resolved(asked.shell, id, outcome), a.buffer + ds)
                else
                  next.pending == a.pending - {id} && next.buffer == a.buffer + ds
                  && next.shell == Resolved(asked.shell, id, outcome))
  {
    var asked := Updated(a, FromHost(PermissionRequested(id, summary)));
    assert id in asked.pending && asked.buffer == a.buffer;
    PauseHolds(asked, ds);
    assert asked.pending - {id} == a.pending - {id};
    assert a.pending - {id} == {} <==> a.pending <= {id};
    var held := Ran(asked, DeltaMessages(ds));
    assert Replayed(Resolved(asked.shell, id, outcome), []) == Resolved(asked.shell, id, outcome);
  }

  lemma OneReplayed(s: Shell, run: string, text: string)
    ensures Replayed(s, [Delta(run, text)]) == Applied(s, RunDelta(run, text))
  {
    assert [Delta(run, text)][..0] == [] && Replayed(s, []) == s;
  }

  /**
   An acceptance that the host reports attaches its run as well, and one without a run attaches none:
   when nothing is pending, the run's next delta goes to the shell.
   */
  lemma HostAcceptanceAttaches(a: State, sub: string, run: string, text: string)
    requires a.pending == {} && run != ""
    ensures var next := Updated(a, FromHost(SubmissionAccepted(sub, run)));
            var after := Updated(next, FromHost(RunDelta(run, text)));
            next.attached == run && after.detached == a.detached
            && after.shell == Applied(next.shell, RunDelta(run, text))
            && next.shell == Applied(a.shell, SubmissionAccepted(sub, run))
    ensures Updated(a, FromHost(SubmissionAccepted(sub, ""))) == a
  {
    var next := Updated(a, FromHost(SubmissionAccepted(sub, run)));
    assert Replayed(next.shell, []) == next.shell && Replayed(a.shell, []) == a.shell;
    OneReplayed(next.shell, run, text);
  }

  /** Text without a run is never kept apart: with nothing pending, the last open row takes it. */
  lemma NamelessDeltaShows(a: State, text: string)
    requires a.pending == {}
    ensures var next := Updated(a, FromHost(RunDelta("", text)));
            next == a.(shell := a.shell.(rows := AppendText(a.shell.rows, "", text)))
  {
    OneReplayed(a.shell, "", text);
  }

  /** An acceptance is recorded under both names. */
  lemma AcceptanceIsRecorded(a: State, sub: string, run: string, runLabel: string)
    ensures var next := Updated(a, Accepted(sub, run, runLabel));
            next.submissionToRun == a.submissionToRun[sub := run]
            && next.runToSubmission == a.runToSubmission[run := sub] && next.attached == run
  {
  }
}
