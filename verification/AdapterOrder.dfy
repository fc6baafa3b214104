/** In what order the text of a run is shown: from its acceptance and start to its end. */
module AdapterOrder {
  import opened Shell
  import opened Adapter
  import opened RowLaws
  import opened AdapterLaws

  // ---------------------------------------------------------------- a run's start

  /**
   Accepting a fresh submission attaches its run: its placeholder becomes the run's row. It is live
   unless text of the run came before.
   */
  lemma AcceptingAttaches(a: State, i: nat, run: string, own: string, runLabel: string)
    requires run != "" && own != "" && i < |a.shell.rows|
    requires IsPlaceholder(a.shell.rows[i], own) && a.shell.rows[i].streaming
    requires forall k :: 0 <= k < i ==> !IsPlaceholder(a.shell.rows[k], own)
    requires forall r :: r in a.shell.rows ==> !Carries(r, run)
    requires Named(a.buffer) && (a.pending == {} ==> a.buffer == [])
    ensures var next := Updated(a, Accepted(own, run, runLabel));
            Attached(next, run, own) && Shown(next, run) == a.shell.rows[i].text + TextFor(a.buffer, run)
            && (Live(next, run, own) <==> Waiting(a.detached, run) == [])
  {
    var rows, row := a.shell.rows, a.shell.rows[i].(runId := run);
    CorrelateAt(rows, i, own, run);
    var next := Updated(a, Accepted(own, run, runLabel));
    assert next.shell.rows == rows[i := row];
    assert forall k :: 0 <= k < i ==> rows[k] in rows && rows[i := row][k] == rows[k];
    FirstRowAt(rows[i := row], run, i);
  }

  predicate Starts(m: Message, run: string) {
    m.FromHost? && m.event.RunStarted? && m.event.runId == run
  }

  /** The state without the run's detached transcript. */
  function Bare(a: State, run: string): State {
    a.(detached := a.detached - {run})
  }

  lemma DeltaIgnoresWaiting(a: State, other: string, text: string, run: string)
    requires a.attached == run
    ensures var m := FromHost(RunDelta(other, text));
            Updated(Bare(a, run), m) == Bare(Updated(a, m), run)
            && Waiting(Updated(a, m).detached, run) == Waiting(a.detached, run)
  {
    var m := FromHost(RunDelta(other, text));
    if other != run {
      assert Waiting(Bare(a, run).detached, other) == Waiting(a.detached, other);
    }
    assert Updated(Bare(a, run), m).detached == Updated(a, m).detached - {run};
  }

  lemma StepIgnoresWaiting(a: State, m: Message, run: string, own: string)
    requires Attached(a, run, own) && Calm(m, run, own) && !Starts(m, run)
    ensures Updated(Bare(a, run), m) == Bare(Updated(a, m), run)
    ensures Waiting(Updated(a, m).detached, run) == Waiting(a.detached, run)
  {
    if m.FromHost? && m.event.RunDelta? {
      DeltaIgnoresWaiting(a, m.event.runId, m.event.delta, run);
    } else if m.FromHost? {
      assert Delivered(Bare(a, run), m.event) == Delivered(a, m.event);
    }
  }

  lemma {:induction false} RunIgnoresWaiting(a: State, ms: seq<Message>, run: string, own: string)
    requires Attached(a, run, own) && forall m :: m in ms ==> Calm(m, run, own) && !Starts(m, run)
    ensures Ran(Bare(a, run), ms) == Bare(Ran(a, ms), run) && Attached(Ran(a, ms), run, own)
    ensures Waiting(Ran(a, ms).detached, run) == Waiting(a.detached, run)
  {
    if ms != [] {
      var init, last := ms[..|ms| - 1], ms[|ms| - 1];
      assert last in ms;
      RunIgnoresWaiting(a, init, run, own);
      StepIgnoresWaiting(Ran(a, init), last, run, own);
      CalmStep(Bare(Ran(a, init), run), last, run, own);
    }
  }

  /** The text of an attached run, until it is started, is that of the deltas since, never the earlier ones. */
  lemma AttachedShows(a: State, ms: seq<Message>, run: string, own: string)
    requires Attached(a, run, own) && forall m :: m in ms ==> Calm(m, run, own) && !Starts(m, run)
    ensures Attached(Ran(a, ms), run, own)
    ensures Shown(Ran(a, ms), run) == Shown(a, run) + TextFor(AllReceived(ms), run)
    ensures Waiting(Ran(a, ms).detached, run) == Waiting(a.detached, run)
  {
    RunIgnoresWaiting(a, ms, run, own);
    PausingIsInvisible(Bare(a, run), ms, run, own);
  }

  lemma NothingInFront(early: string, rest: string)
    ensures rest == early + rest <==> early == ""
  {
    assert |early + rest| == |early| + |rest|;
    assert "" + rest == rest;
  }

  /**
   Delta order before the start. A run attached with an empty row, and not started yet, shows all its
   text in arrival order exactly when no text of it was waiting in a detached transcript.
   */
  lemma OrderKeptExactly(a: State, ms: seq<Message>, run: string, own: string)
    requires Attached(a, run, own) && Shown(a, run) == ""
    requires forall m :: m in ms ==> Calm(m, run, own) && !Starts(m, run)
    ensures Attached(Ran(a, ms), run, own)
    ensures var early := Waiting(a.detached, run);
            Shown(Ran(a, ms), run) == TextFor(early + AllReceived(ms), run) <==> TextFor(early, run) == ""
  {
    var early := Waiting(a.detached, run);
    AttachedShows(a, ms, run, own);
    TextOfConcat(early, AllReceived(ms), run);
    NothingInFront("", TextFor(AllReceived(ms), run));
    NothingInFront(TextFor(early, run), TextFor(AllReceived(ms), run));
  }

  /** Starting the run then replays the earlier text behind what its row has, and before what is buffered. */
  lemma StartReplaysEarly(a: State, sub: string, run: string, own: string)
    requires Attached(a, run, own) && Valid(a) && (sub == "" || sub == own)
    ensures var next := Updated(a, FromHost(RunStarted(sub, run)));
            Live(next, run, own) && next.buffer == a.buffer
            && RunRow(next.shell.rows, run).text ==
               RunRow(a.shell.rows, run).text + TextFor(Waiting(a.detached, run), run)
  {
    var e := RunStarted(sub, run);
    NamingKeepsRow(a.shell, sub, run, own);
    assert Delivered(a, e) == Waiting(a.detached, run);
    ReplayGrowsRow(Applied(a.shell, e), Waiting(a.detached, run), run, own);
  }

  // ---------------------------------------------------------------- order over the start

  lemma {:induction false} RanOfConcat(a: State, ms: seq<Message>, more: seq<Message>)
    ensures Ran(a, ms + more) == Ran(Ran(a, ms), more)
  {
    if more == [] {
      assert ms + more == ms;
    } else {
      assert (ms + more)[..|ms + more| - 1] == ms + more[..|more| - 1];
      RanOfConcat(a, ms, more[..|more| - 1]);
    }
  }

  lemma {:induction false} ReceivedOfConcat(ms: seq<Message>, more: seq<Message>)
    ensures AllReceived(ms + more) == AllReceived(ms) + AllReceived(more)
  {
    if more == [] {
      assert ms + more == ms;
    } else {
      assert (ms + more)[..|ms + more| - 1] == ms + more[..|more| - 1];
      ReceivedOfConcat(ms, more[..|more| - 1]);
    }
  }

  /** The messages of a run's life: some, its start, and more. */
  function Around(before: seq<Message>, sub: string, run: string, after: seq<Message>): seq<Message> {
    before + [FromHost(RunStarted(sub, run))] + after
  }

  lemma RanOne(a: State, m: Message)
    ensures Ran(a, [m]) == Updated(a, m) && AllReceived([m]) == Received(m)
  {
    assert [m][..0] == [] && Ran(a, []) == a && AllReceived([]) == [];
    assert [] + Received(m) == Received(m);
  }

  lemma AroundRuns(a: State, before: seq<Message>, sub: string, run: string, after: seq<Message>)
    ensures Ran(a, Around(before, sub, run, after)) ==
            Ran(Updated(Ran(a, before), FromHost(RunStarted(sub, run))), after)
    ensures AllReceived(Around(before, sub, run, after)) == AllReceived(before) + AllReceived(after)
  {
    var start := FromHost(RunStarted(sub, run));
    RanOfConcat(a, before, [start]);
    RanOne(Ran(a, before), start);
    RanOfConcat(a, before + [start], after);
    ReceivedOfConcat(before, [start]);
    ReceivedOfConcat(before + [start], after);
    assert AllReceived(before) + [] == AllReceived(before);
  }

  /** Two texts in either order before the same rest. */
  lemma SwappedExactly(row: string, early: string, held: string, later: string)
    ensures ((row + early) + held) + later == early + ((row + held) + later) <==> row + early == early + row
  {
    var rest := held + later;
    assert ((row + early) + held) + later == (row + early) + rest;
    assert early + ((row + held) + later) == (early + row) + rest;
    assert ((row + early) + rest)[..|row| + |early|] == row + early;
    assert ((early + row) + rest)[..|row| + |early|] == early + row;
  }

  /** What is shown just before, and just after, a start in the middle. */
  lemma StartShows(a: State, before: seq<Message>, sub: string, run: string, own: string)
    requires Attached(a, run, own) && Valid(a) && Shown(a, run) == "" && (sub == "" || sub == own)
    requires forall m :: m in before ==> Calm(m, run, own) && !Starts(m, run)
    ensures var mid, early := Ran(a, before), TextFor(Waiting(a.detached, run), run);
            var next := Updated(mid, FromHost(RunStarted(sub, run)));
            Attached(mid, run, own) && Live(next, run, own)
            && TextFor(AllReceived(before), run) == RunRow(mid.shell.rows, run).text + TextFor(mid.buffer, run)
            && Shown(next, run) == (RunRow(mid.shell.rows, run).text + early) + TextFor(mid.buffer, run)
  {
    AttachedShows(a, before, run, own);
    assert "" + TextFor(AllReceived(before), run) == TextFor(AllReceived(before), run);
    DeltaConservation(a, before, Delta(run, ""));
    StartReplaysEarly(Ran(a, before), sub, run, own);
  }

  /**
   Delta order over the start. A run attached with an empty row, started after any messages and
   followed by any more, shows all its text in arrival order exactly when the text its row had when
   it started reads the same before and after the text that waited: when either is empty, say.
   */
  lemma OrderOverStart(a: State, before: seq<Message>, sub: string, after: seq<Message>, run: string, own: string)
    requires Attached(a, run, own) && Valid(a) && Shown(a, run) == "" && (sub == "" || sub == own)
    requires forall m :: m in before ==> Calm(m, run, own) && !Starts(m, run)
    requires forall m :: m in after ==> Calm(m, run, own)
    ensures Attached(Ran(a, before), run, own) && Live(Ran(a, Around(before, sub, run, after)), run, own)
    ensures var ms, waited := Around(before, sub, run, after), Waiting(a.detached, run);
            var row, early := RunRow(Ran(a, before).shell.rows, run).text, TextFor(waited, run);
            Shown(Ran(a, ms), run) == TextFor(waited + AllReceived(ms), run) <==> row + early == early + row
  {
    var mid, waited := Ran(a, before), Waiting(a.detached, run);
    StartShows(a, before, sub, run, own);
    var next := Updated(mid, FromHost(RunStarted(sub, run)));
    PausingIsInvisible(next, after, run, own);
    AroundRuns(a, before, sub, run, after);
    TextOfConcat(AllReceived(before), AllReceived(after), run);
    TextOfConcat(waited, AllReceived(before) + AllReceived(after), run);
    SwappedExactly(RunRow(mid.shell.rows, run).text, TextFor(waited, run), TextFor(mid.buffer, run),
                   TextFor(AllReceived(after), run));
  }

  // ---------------------------------------------------------------- where order is lost

  /** The events that end a run. */
  predicate Ends(e: HostEvent, run: string) {
    e == RunCompleted(run) || e == RunStopped(run) || e == RunFailed(run)
  }

  lemma EndCloses(a: State, e: HostEvent, run: string)
    requires run != "" && HasRow(a.shell.rows, run) && Ends(e, run)
    ensures var rows, i := Updated(a, FromHost(e)).shell.rows, FirstRow(a.shell.rows, run);
            i < |rows| && rows[i] == a.shell.rows[i].(streaming := false)
  {
    assert Replayed(Applied(a.shell, e), []) == Applied(a.shell, e);
    var next := Ended(a.shell, run);
    assert next.rows[FirstRow(a.shell.rows, run)] == RunRow(a.shell.rows, run).(streaming := false);
    assert next.rows <= Released(next).rows;
  }

  lemma WholeExactly(early: string, row: string, held: string)
    ensures row == early + (row + held) <==> early == "" && held == ""
  {
    assert |early + (row + held)| == |early| + |row| + |held|;
    if early == "" && held == "" {
      assert early + (row + held) == row;
    }
  }

  /**
   A run's end closes its row as it is. It then has the whole text exactly when none of it is held
   back: not by a pause, whose deltas the end overtakes, nor as text from before the attachment.
   */
  lemma EndClosesRow(a: State, e: HostEvent, run: string, own: string, i: nat)
    requires Attached(a, run, own) && Ends(e, run) && i == FirstRow(a.shell.rows, run)
    ensures var rows, early := Updated(a, FromHost(e)).shell.rows, TextFor(Waiting(a.detached, run), run);
            i < |rows| && rows[i] == a.shell.rows[i].(streaming := false)
            && (rows[i].text == early + Shown(a, run) <==> early == "" && TextFor(a.buffer, run) == "")
  {
    EndCloses(a, e, run);
    WholeExactly(TextFor(Waiting(a.detached, run), run), a.shell.rows[i].text, TextFor(a.buffer, run));
  }

  /**
   Over a whole life without a start: from an attached run with an empty row, through any calm
   messages to its end. The closed row has all the run's text exactly when none of it waited in a
   detached transcript and none is in the pause buffer when it ends.
   */
  lemma EndedRowIsWhole(a: State, ms: seq<Message>, e: HostEvent, run: string, own: string)
    requires Attached(a, run, own) && Shown(a, run) == "" && Ends(e, run)
    requires forall m :: m in ms ==> Calm(m, run, own) && !Starts(m, run)
    ensures var end, waited := Ran(a, ms), Waiting(a.detached, run);
            var rows, i := Updated(end, FromHost(e)).shell.rows, FirstRow(end.shell.rows, run);
            i < |rows| && rows[i].runId == run && !rows[i].streaming
            && (rows[i].text == TextFor(waited + AllReceived(ms), run) <==>
                TextFor(waited, run) == "" && TextFor(end.buffer, run) == "")
  {
    AttachedShows(a, ms, run, own);
    TextOfConcat(Waiting(a.detached, run), AllReceived(ms), run);
    assert "" + TextFor(AllReceived(ms), run) == TextFor(AllReceived(ms), run);
    EndClosesRow(Ran(a, ms), e, run, own, FirstRow(Ran(a, ms).shell.rows, run));
  }

  /** From a start on nothing waits: the closed row is whole exactly when nothing is buffered. */
  lemma StartedRowIsWhole(a: State, ms: seq<Message>, e: HostEvent, run: string, own: string)
    requires Live(a, run, own) && Ends(e, run) && forall m :: m in ms ==> Calm(m, run, own)
    ensures var end := Ran(a, ms);
            var rows, i := Updated(end, FromHost(e)).shell.rows, FirstRow(end.shell.rows, run);
            i < |rows| && rows[i].runId == run && !rows[i].streaming
            && (rows[i].text == Shown(a, run) + TextFor(AllReceived(ms), run) <==> TextFor(end.buffer, run) == "")
  {
    PausingIsInvisible(a, ms, run, own);
    EndClosesRow(Ran(a, ms), e, run, own, FirstRow(Ran(a, ms).shell.rows, run));
    var shown := Shown(Ran(a, ms), run);
    assert "" + shown == shown;
  }

  function AllText(ds: seq<Delta>): string {
    if ds == [] then "" else AllText(ds[..|ds| - 1]) + ds[|ds| - 1].text
  }

  lemma {:induction false} LastStays(rows: seq<Row>, i: nat, text: string)
    requires i < |rows|
    ensures LastRow(rows[i := rows[i].(text := text)], false) == LastRow(rows, false)
  {
    var next, last := rows[i := rows[i].(text := text)], |rows| - 1;
    if i < last {
      LastStays(rows[..last], i, text);
      assert next[..last] == rows[..last][i := rows[i].(text := text)];
    } else {
      assert next[..last] == rows[..last];
    }
  }

  lemma FirstStays(rows: seq<Row>, i: nat, text: string, run: string)
    requires i < |rows| && rows[i].runId == "" && run != ""
    ensures FirstRow(rows[i := rows[i].(text := text)], run) == FirstRow(rows, run)
  {
    NoneBeforeFirst(rows, run);
    FirstRowAt(rows[i := rows[i].(text := text)], run, FirstRow(rows, run));
  }

  /** The last open row without a run stays it while it takes text, and no run gains a row. */
  lemma TakingTextStays(rows: seq<Row>, i: nat, text: string, run: string)
    requires i < |rows| && rows[i].runId == "" && run != ""
    ensures LastRow(rows[i := rows[i].(text := text)], false) == LastRow(rows, false)
    ensures FirstRow(rows[i := rows[i].(text := text)], run) == FirstRow(rows, run)
  {
    LastStays(rows, i, text);
    FirstStays(rows, i, text, run);
  }

  /** Every delta is of a run without an open row. */
  ghost predicate Stray(rows: seq<Row>, ds: seq<Delta>) {
    forall d :: d in ds ==> d.runId != "" && !HasRow(rows, d.runId)
  }

  /**
   Where overtaken text goes: replayed after its run has ended, it all lands in the last open row
   that has no run yet, the next submission's, or is lost when there is none.
   */
  lemma {:induction false} StrayTextLands(s: Shell, ds: seq<Delta>)
    requires Stray(s.rows, ds)
    ensures var i := LastRow(s.rows, false);
            Replayed(s, ds).rows ==
            if i < 0 then s.rows else WithText(s.rows, i, AllText(ds))
  {
    var i := LastRow(s.rows, false);
    if ds == [] {
      if i >= 0 {
        assert s.rows[i].text + "" == s.rows[i].text;
      }
    } else {
      var init, last := ds[..|ds| - 1], ds[|ds| - 1];
      assert last in ds && forall d :: d in init ==> d in ds;
      StrayTextLands(s, init);
      if i >= 0 {
        StrayStep(s.rows, i, AllText(init), last);
      } else if last.text != "" {
        StrayText(s.rows, last.runId, last.text);
      }
    }
  }

  function WithText(rows: seq<Row>, i: nat, more: string): seq<Row>
    requires i < |rows|
  {
    rows[i := rows[i].(text := rows[i].text + more)]
  }

  lemma WithTextTwice(rows: seq<Row>, i: nat, a: string, b: string)
    requires i < |rows|
    ensures WithText(WithText(rows, i, a), i, b) == WithText(rows, i, a + b)
  {
    assert (rows[i].text + a) + b == rows[i].text + (a + b);
  }

  lemma StrayStep(rows: seq<Row>, i: nat, text: string, d: Delta)
    requires i < |rows| && LastRow(rows, false) == i && d.runId != "" && !HasRow(rows, d.runId)
    ensures AppendText(WithText(rows, i, text), d.runId, d.text) == WithText(rows, i, text + d.text)
  {
    var now := WithText(rows, i, text);
    TakingTextStays(rows, i, rows[i].text + text, d.runId);
    WithTextTwice(rows, i, text, d.text);
    if d.text == "" {
      assert text + d.text == text;
    } else {
      StrayText(now, d.runId, d.text);
    }
  }

  /** Replaying such text changes the transcript exactly when there is text and an open row without a run. */
  lemma StrayTextShowsExactly(s: Shell, ds: seq<Delta>)
    requires Stray(s.rows, ds)
    ensures Replayed(s, ds).rows == s.rows <==> AllText(ds) == "" || LastRow(s.rows, false) < 0
  {
    StrayTextLands(s, ds);
    var i := LastRow(s.rows, false);
    if i >= 0 {
      var row := s.rows[i];
      assert row.text + "" == row.text;
      assert AllText(ds) != "" ==> |row.text + AllText(ds)| > |row.text|;
      assert WithText(s.rows, i, AllText(ds))[i].text == row.text + AllText(ds);
    }
  }

  /** A run whose prompt is asked, whose text then arrives, and which ends before the answer. */
  function PausedEnd(run: string, id: string, text: string, outcome: PermissionOutcome): seq<Message> {
    [FromHost(PermissionRequested(id, "")), FromHost(RunDelta(run, text)), FromHost(RunCompleted(run)),
     FromHost(PermissionResolved(id, outcome))]
  }

  lemma AskedAndBuffered(run: string, id: string, text: string, shell: Shell)
    requires LeftBehind(run, shell) && id != ""
    ensures var a := State(shell, map[], map[], run, {}, [], map[]);
            var asked := Requested(shell, id, "");
            Updated(Updated(a, FromHost(PermissionRequested(id, ""))), FromHost(RunDelta(run, text))) ==
            State(asked, map[], map[], run, {id}, [Delta(run, text)], map[])
            && |asked.rows| == 3 && asked.rows[..2] == shell.rows && asked.rows[2].role == EventRow
  {
    assert [] + [Delta(run, text)] == [Delta(run, text)] && {} + {id} == {id};
  }

  /** Three rows of which none is open. */
  ghost predicate AllClosed(rows: seq<Row>) {
    |rows| == 3 && rows[0].role == User && !rows[1].streaming && rows[2].role == EventRow
  }

  lemma NothingOpen(rows: seq<Row>, run: string)
    requires AllClosed(rows)
    ensures !HasRow(rows, run) && LastRow(rows, false) < 0
  {
    NoRowOf(rows, run);
    var two, one := rows[..2], rows[..1];
    assert two[..1] == one && one[..0] == [];
    assert LastRow(one, false) == LastRow([], false) == -1;
    assert LastRow(two, false) == LastRow(one, false);
    assert LastRow(rows, false) == LastRow(two, false);
  }

  lemma EndedThenResolved(run: string, id: string, text: string, shell: Shell, outcome: PermissionOutcome)
    requires run != "" && id != "" && !HasQueue(shell) && |shell.rows| == 3 && shell.rows[0].role == User
    requires Carries(shell.rows[1], run) && shell.rows[2].role == EventRow
    ensures var a := State(shell, map[], map[], run, {id}, [Delta(run, text)], map[]);
            var ended := Updated(a, FromHost(RunCompleted(run)));
            var rows := Updated(ended, FromHost(PermissionResolved(id, outcome))).shell.rows;
            |rows| == 3 && rows[1] == shell.rows[1].(streaming := false)
  {
    FirstRowAt(shell.rows, run, 1);
    var closed := Ended(shell, run);
    assert closed.rows == shell.rows[1 := shell.rows[1].(streaming := false)];
    var a := State(shell, map[], map[], run, {id}, [Delta(run, text)], map[]);
    assert Updated(a, FromHost(RunCompleted(run))) == a.(shell := closed, attached := "");
    var resolved := Resolved(closed, id, outcome);
    MarkSpares(closed.rows, id, StatusFor(outcome));
    NothingOpen(resolved.rows, run);
    StrayTextLands(resolved, [Delta(run, text)]);
    assert {id} - {id} == {};
  }

  /** A run that ends while a prompt is pending loses the text that arrived during the pause. */
  lemma EndDuringPauseLosesText(run: string, id: string, text: string, shell: Shell, outcome: PermissionOutcome)
    requires LeftBehind(run, shell) && id != "" && text != "" && !HasQueue(shell) && shell.rows[1].text == ""
    ensures var a := State(shell, map[], map[], run, {}, [], map[]);
            var rows := Ran(a, PausedEnd(run, id, text, outcome)).shell.rows;
            |rows| == 3 && rows[1].runId == run && !rows[1].streaming && rows[1].text == ""
  {
    var a, ms := State(shell, map[], map[], run, {}, [], map[]), PausedEnd(run, id, text, outcome);
    RanFour(a, ms[0], ms[1], ms[2], ms[3]);
    AskedAndBuffered(run, id, text, shell);
    var asked := Requested(shell, id, "");
    assert asked.rows[0] == asked.rows[..2][0] && asked.rows[1] == asked.rows[..2][1];
    EndedThenResolved(run, id, text, asked, outcome);
  }

  /** A run attached to an open row in second place. */
  ghost predicate LeftBehind(run: string, shell: Shell) {
    run != "" && |shell.rows| == 2 && shell.rows[0].role == User && Carries(shell.rows[1], run)
  }

  /** The first text of a run, and only then the acceptance of its submission. */
  function EarlyText(run: string, own: string, runLabel: string, early: string): seq<Message> {
    [FromHost(RunDelta(run, early)), Accepted(own, run, runLabel)]
  }

  lemma EarlyDeltaWaits(shell: Shell, run: string, early: string)
    requires run != ""
    ensures Ran(State(shell, map[], map[], "", {}, [], map[]), [FromHost(RunDelta(run, early))]) ==
            State(shell, map[], map[], "", {}, [], map[run := [Delta(run, early)]])
  {
    RanOne(State(shell, map[], map[], "", {}, [], map[]), FromHost(RunDelta(run, early)));
    assert [] + [Delta(run, early)] == [Delta(run, early)];
  }

  lemma EarlyTextRuns(shell: Shell, run: string, own: string, runLabel: string, early: string)
    requires run != ""
    ensures var waits := State(shell, map[], map[], "", {}, [], map[run := [Delta(run, early)]]);
            Ran(State(shell, map[], map[], "", {}, [], map[]), EarlyText(run, own, runLabel, early)) ==
            Updated(waits, Accepted(own, run, runLabel))
  {
    EarlyDeltaWaits(shell, run, early);
    var a := State(shell, map[], map[], "", {}, [], map[]);
    var m, n := FromHost(RunDelta(run, early)), Accepted(own, run, runLabel);
    RanOfConcat(a, [m], [n]);
    RanOne(Ran(a, [m]), n);
    assert [m, n] == [m] + [n];
  }

  lemma PlaceholderIsRow(shell: Shell, run: string, own: string)
    requires run != "" && own != "" && shell.rows == Optimistic(own, "", [], [])
    ensures FirstRow(Applied(shell, SubmissionAccepted(own, run)).rows, run) == 1
  {
    CorrelateAt(shell.rows, 1, own, run);
    FirstRowAt(shell.rows[1 := shell.rows[1].(runId := run)], run, 1);
  }

  lemma EarlyTextWaits(run: string, own: string, runLabel: string, shell: Shell, early: string)
    requires run != "" && own != "" && shell.rows == Optimistic(own, "", [], [])
    ensures var a := Ran(State(shell, map[], map[], "", {}, [], map[]), EarlyText(run, own, runLabel, early));
            Attached(a, run, own) && Valid(a) && Shown(a, run) == "" && a.pending == {} && a.buffer == []
            && Waiting(a.detached, run) == [Delta(run, early)] && FirstRow(a.shell.rows, run) == 1
  {
    var waits := State(shell, map[], map[], "", {}, [], map[run := [Delta(run, early)]]);
    EarlyTextRuns(shell, run, own, runLabel, early);
    AcceptingAttaches(waits, 1, run, own, runLabel);
    PlaceholderIsRow(shell, run, own);
    var a := Updated(waits, Accepted(own, run, runLabel));
    assert a.shell == Applied(shell, SubmissionAccepted(own, run)) && a.detached == waits.detached;
    assert "" + TextFor([], run) == "";
  }

  lemma OneDelta(run: string, own: string, text: string)
    requires run != ""
    ensures var ms := [FromHost(RunDelta(run, text))];
            AllReceived(ms) == [Delta(run, text)] && TextFor(AllReceived(ms), run) == text
            && forall m :: m in ms ==> Calm(m, run, own) && !Starts(m, run)
  {
    var ms := [FromHost(RunDelta(run, text))];
    assert ms[..0] == [] && [] + [Delta(run, text)] == [Delta(run, text)];
    TextOfOne(Delta(run, text), run);
  }

  lemma OneDeltaShows(a: State, run: string, own: string, text: string)
    requires Attached(a, run, own) && Shown(a, run) == "" && a.pending == {}
    ensures var mid := Ran(a, [FromHost(RunDelta(run, text))]);
            Attached(mid, run, own) && RunRow(mid.shell.rows, run).text == text && mid.buffer == []
  {
    var ms := [FromHost(RunDelta(run, text))];
    OneDelta(run, own, text);
    AttachedShows(a, ms, run, own);
    assert ms[..0] == [] && Ran(a, ms) == Updated(a, ms[0]);
    var row := RunRow(Ran(a, ms).shell.rows, run).text;
    assert row + "" == row && "" + text == text;
  }

  /**
   Text that comes before the acceptance is replayed when the run is started, behind the text that
   came in between: in order only when the two read the same either way.
   */
  lemma AttachingOvertakes(run: string, own: string, runLabel: string, shell: Shell, early: string, late: string)
    requires run != "" && own != "" && shell.rows == Optimistic(own, "", [], [])
    ensures var a := Ran(State(shell, map[], map[], "", {}, [], map[]), EarlyText(run, own, runLabel, early));
            var end := Ran(a, Around([FromHost(RunDelta(run, late))], own, run, []));
            Live(end, run, own) && RunRow(end.shell.rows, run).text == late + early && end.buffer == []
            && (Shown(end, run) == early + late <==> late + early == early + late)
            && (early != "" && late != "" && early[0] != late[0] ==> Shown(end, run) != early + late)
  {
    var a := Ran(State(shell, map[], map[], "", {}, [], map[]), EarlyText(run, own, runLabel, early));
    var before := [FromHost(RunDelta(run, late))];
    EarlyTextWaits(run, own, runLabel, shell, early);
    OneDelta(run, own, late);
    OneDeltaShows(a, run, own, late);
    AttachedShows(a, before, run, own);
    DeltaConservation(a, before, Delta(run, ""));
    TextOfOne(Delta(run, early), run);
    StartReplaysEarly(Ran(a, before), own, run, own);
    AroundRuns(a, before, own, run, []);
    OrderOverStart(a, before, own, [], run, own);
    var end := Ran(a, Around(before, own, run, []));
    assert AllReceived([]) == [] && AllReceived(before) + [] == AllReceived(before);
    TextOfConcat([Delta(run, early)], AllReceived(before), run);
    assert early != "" && late != "" ==> (late + early)[0] == late[0] && (early + late)[0] == early[0];
  }

  /** A run whose first text comes before its acceptance, and which ends before it is started, loses it. */
  lemma EndBeforeStartLosesText(run: string, own: string, runLabel: string, shell: Shell, early: string,
                                e: HostEvent)
    requires run != "" && own != "" && early != "" && shell.rows == Optimistic(own, "", [], []) && Ends(e, run)
    ensures var a := Ran(State(shell, map[], map[], "", {}, [], map[]), EarlyText(run, own, runLabel, early));
            var rows := Updated(a, FromHost(e)).shell.rows;
            a.buffer == [] && |rows| >= 2 && rows[1].runId == run && !rows[1].streaming && rows[1].text == ""
  {
    var a := Ran(State(shell, map[], map[], "", {}, [], map[]), EarlyText(run, own, runLabel, early));
    EarlyTextWaits(run, own, runLabel, shell, early);
    EndClosesRow(a, e, run, own, 1);
    assert RunRow(a.shell.rows, run).text + TextFor(a.buffer, run) == "";
  }

  lemma RanFour(a: State, m0: Message, m1: Message, m2: Message, m3: Message)
    ensures Ran(a, [m0, m1, m2, m3]) == Updated(Updated(Updated(Updated(a, m0), m1), m2), m3)
  {
    assert [m0, m1, m2, m3][..3] == [m0, m1, m2] && [m0, m1, m2][..2] == [m0, m1];
    assert [m0, m1][..1] == [m0] && [m0][..0] == [];
    assert Ran(a, [m0]) == Updated(a, m0);
    assert Ran(a, [m0, m1]) == Updated(Ran(a, [m0]), m1);
    assert Ran(a, [m0, m1, m2]) == Updated(Ran(a, [m0, m1]), m2);
  }
}
