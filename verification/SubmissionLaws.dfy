/** What goes out of the shell: submissions with names of their own, merged follow-ups, commands, interrupts. */
module SubmissionLaws {
  import opened Numbers
  import opened Shell
  import opened ShellLaws
  import opened DecisionLaws
  import Sse

  // ---------------------------------------------------------------- one Enter

  /**
   Text entered on an idle shell goes out at once, and shows as a user row with that text, followed
   by an open assistant row of the same submission.
   */
  lemma TextGoesOut(s: Shell, value: string, tokens: seq<Token>)
    requires !s.streaming && !HasQueue(s) && (Sse.Trim(value) != "" || tokens != [])
    requires !IsCommand(Sse.Trim(value), tokens)
    ensures var next, text := Stepped(s, KeyPress(Enter(value, tokens))), Sse.Trim(value);
            |next.actions| == |s.actions| + 1 && next.actions[..|s.actions|] == s.actions
            && |next.rows| == |s.rows| + 2 && next.rows[..|s.rows|] == s.rows
            && next.actions[|s.actions|] == SubmitTurn(next.rows[|s.rows|].submissionId, [], text, tokens, Direct)
            && next.rows[|s.rows|].role == User && next.rows[|s.rows|].text == text
            && next.rows[|s.rows|].tokens == tokens
            && next.rows[|s.rows| + 1].role == Assistant && next.rows[|s.rows| + 1].streaming
            && next.rows[|s.rows| + 1].text == "" && next.rows[|s.rows| + 1].runId == ""
            && next.rows[|s.rows| + 1].submissionId == next.rows[|s.rows|].submissionId
            && next.streaming && !next.interruptArmed && !HasQueue(next)
  {
    TrimTwice(value);
  }

  /** A slash command goes out at once, streaming or not, and changes nothing else. */
  lemma CommandGoesOut(s: Shell, value: string)
    requires |Sse.Trim(value)| > 1 && Sse.Trim(value)[0] == '/'
    ensures Stepped(s, KeyPress(Enter(value, []))) == s.(actions := s.actions + [RunHostCommand(Sse.Trim(value))])
  {
  }

  /** A lone slash is text, and so is a slash text with tokens. */
  lemma OtherSlashIsText(s: Shell, value: string, tokens: seq<Token>)
    requires !s.streaming && !HasQueue(s) && (Sse.Trim(value) == "/" || (Sse.Trim(value) != "" && tokens != []))
    ensures var next := Stepped(s, KeyPress(Enter(value, tokens)));
            Submissions(next.actions) == Submissions(s.actions) + 1
  {
    TextGoesOut(s, value, tokens);
    var next := Stepped(s, KeyPress(Enter(value, tokens)));
    assert next.actions == s.actions + [next.actions[|s.actions|]];
    SubmissionsOfSnoc(s.actions, next.actions[|s.actions|]);
  }

  // ---------------------------------------------------------------- interrupts

  /** Escape interrupts only when pressed twice while streaming, and then the active run. */
  lemma EscapeTwiceInterrupts(s: Shell)
    requires !s.interruptArmed
    ensures var once := Stepped(s, KeyPress(Escape));
            var twice := Stepped(once, KeyPress(Escape));
            once.actions == s.actions && once.rows == s.rows
            && twice.actions == (if s.streaming then s.actions + [InterruptRun(s.activeRunId)] else s.actions)
            && !twice.interruptArmed && twice.rows == s.rows && twice.streaming == s.streaming
  {
  }

  lemma PressedTwice(s: Shell, k: Key)
    ensures Ran(s, Times(k, 2)) == Stepped(Stepped(s, KeyPress(k)), KeyPress(k))
  {
    RanOne(s, KeyPress(k));
    RanOfConcat(s, [KeyPress(k)], [KeyPress(k)]);
    RanOne(Stepped(s, KeyPress(k)), KeyPress(k));
    assert Times(k, 1) == Times(k, 0) + [KeyPress(k)] == [KeyPress(k)];
    assert Times(k, 2) == Times(k, 1) + [KeyPress(k)];
  }

  predicate Names(e: HostEvent, run: string) {
    (e.RunStarted? || e.SubmissionAccepted?) && e.runId == run
  }

  /** The run that is interrupted is the one last accepted or started. */
  lemma InterruptNamesRun(s: Shell, e: HostEvent, run: string)
    requires Names(e, run) && run != "" && !s.interruptArmed && (s.streaming || e.RunStarted?)
    ensures Ran(s, [Event(e)] + Times(Escape, 2)).actions == s.actions + [InterruptRun(run)]
  {
    var named := Stepped(s, Event(e));
    assert named.activeRunId == run && named.streaming && named.actions == s.actions && !named.interruptArmed;
    RanOne(s, Event(e));
    RanOfConcat(s, [Event(e)], Times(Escape, 2));
    PressedTwice(named, Escape);
    EscapeTwiceInterrupts(named);
  }

  /** Keys never change which run that is; what ends a run or a submission forgets it and disarms. */
  lemma ActiveRunStays(s: Shell, k: Key)
    ensures Stepped(s, KeyPress(k)).activeRunId == s.activeRunId
  {
  }

  lemma EndForgetsRun(s: Shell, e: HostEvent)
    requires EndsStreaming(Event(e)) && !HasQueue(s)
    ensures var next := Stepped(s, Event(e));
            next.activeRunId == "" && !next.interruptArmed && !next.streaming
            && Stepped(next, KeyPress(Escape)) == next
  {
  }

  // ---------------------------------------------------------------- follow-ups

  function JoinAll(texts: seq<string>): string {
    if texts == [] then ""
    else if |texts| == 1 then texts[0]
    else JoinAll(texts[..|texts| - 1]) + "\n\n" + texts[|texts| - 1]
  }

  function Enters(texts: seq<string>): seq<Input> {
    if texts == [] then [] else Enters(texts[..|texts| - 1]) + [KeyPress(Enter(texts[|texts| - 1], []))]
  }

  /** Texts without white space around them that are no commands. */
  predicate PlainTexts(texts: seq<string>) {
    forall t | t in texts :: t != "" && Sse.Trim(t) == t && !IsCommand(t, [])
  }

  function Followups(counter: nat, texts: seq<string>): seq<Queued> {
    if texts == [] then []
    else
      var last := texts[|texts| - 1];
      Followups(counter, texts[..|texts| - 1]) + [Queued(SubmissionName(counter + |texts|), last, [last], [])]
  }

  lemma {:induction false} TextsAreQueued(s: Shell, texts: seq<string>)
    requires s.streaming && !HasQueue(s) && PlainTexts(texts)
    ensures Ran(s, Enters(texts)) ==
            s.(counter := s.counter + |texts|, queued := Followups(s.counter, texts))
  {
    if texts != [] {
      var init, last := texts[..|texts| - 1], texts[|texts| - 1];
      assert last in texts;
      TextsAreQueued(s, init);
    }
  }

  lemma {:induction false} FollowupsMerge(counter: nat, texts: seq<string>)
    requires PlainTexts(texts)
    ensures Merged(Followups(counter, texts)) == Queued("", JoinAll(texts), texts, [])
    ensures JoinAll(texts) == "" <==> texts == []
    ensures |Followups(counter, texts)| == |texts|
  {
    if texts != [] {
      var init, last := texts[..|texts| - 1], texts[|texts| - 1];
      assert last in texts && texts == init + [last];
      FollowupsMerge(counter, init);
      var items := Followups(counter, texts);
      assert items[..|items| - 1] == Followups(counter, init) && items[|items| - 1].text == last;
      assert [] + items[|items| - 1].tokens == [];
      if init == [] {
        assert texts == [last];
      }
    }
  }

  lemma JoinedIsTrimmed(texts: seq<string>)
    requires PlainTexts(texts) && texts != []
    ensures JoinAll(texts) != "" && Sse.Trim(JoinAll(texts)) == JoinAll(texts)
  {
    JoinedEnds(texts);
    var all := JoinAll(texts);
    assert Sse.TrimLeft(all) == all && Sse.TrimRight(all) == all;
  }

  lemma {:induction false} JoinedEnds(texts: seq<string>)
    requires PlainTexts(texts) && texts != []
    ensures var all := JoinAll(texts);
            all != "" && !Sse.IsSpace(all[0]) && !Sse.IsSpace(all[|all| - 1])
  {
    var last := texts[|texts| - 1];
    assert last in texts;
    TrimmedEnds(last);
    if |texts| > 1 {
      JoinedEnds(texts[..|texts| - 1]);
    }
  }

  lemma TrimmedEnds(t: string)
    requires t != "" && Sse.Trim(t) == t
    ensures !Sse.IsSpace(t[0]) && !Sse.IsSpace(t[|t| - 1])
  {
    LeftStays(t);
    RightStays(Sse.TrimLeft(t));
  }

  lemma QueueGoesOut(s: Shell, run: string, text: string, entries: seq<string>)
    requires s.merging == [] && s.queued != [] && Merged(s.queued) == Queued("", text, entries, [])
    requires Sse.Trim(text) == text
    ensures var next := Stepped(s, Event(RunCompleted(run)));
            next.actions == s.actions + [SubmitTurn(SubmissionName(s.counter + 1), entries, text, [], QueueRelease)]
            && !HasQueue(next) && next.streaming
            && |next.rows| == |s.rows| + 2 && next.rows[|s.rows|].role == User
            && next.rows[|s.rows|].text == text && next.rows[|s.rows|].entries == entries
  {
    var ended := Ended(s, run);
    assert ended.queued == s.queued && ended.merging == [] && ended.actions == s.actions && HasQueue(ended);
  }

  /**
   Follow-ups typed while a run streams wait for its completion, and then go out as one submission:
   their texts in order with a blank line between any two, and each as an entry.
   */
  lemma FollowupsGoOut(s: Shell, texts: seq<string>, run: string)
    requires s.streaming && !HasQueue(s) && PlainTexts(texts) && texts != []
    ensures var waiting := Ran(s, Enters(texts));
            var next := Stepped(waiting, Event(RunCompleted(run)));
            waiting.actions == s.actions
            && next.actions == s.actions + [SubmitTurn(SubmissionName(s.counter + |texts| + 1), texts,
                                                       JoinAll(texts), [], QueueRelease)]
            && !HasQueue(next) && next.streaming
            && |next.rows| == |s.rows| + 2 && next.rows[|s.rows|].role == User
            && next.rows[|s.rows|].text == JoinAll(texts) && next.rows[|s.rows|].entries == texts
  {
    TextsAreQueued(s, texts);
    FollowupsMerge(s.counter, texts);
    JoinedIsTrimmed(texts);
    QueueGoesOut(Ran(s, Enters(texts)), run, JoinAll(texts), texts);
  }

  /** A run that is stopped or fails releases nothing: the queue waits for Enter. */
  lemma OtherEndsHoldQueue(s: Shell, e: HostEvent)
    requires e.RunStopped? || e.RunFailed? || e.SubmissionFailed?
    ensures var next := Stepped(s, Event(e));
            next.actions == s.actions && next.queued == s.queued && next.merging == s.merging && !next.streaming
  {
  }

  /** A failed submission takes its rows along and leaves all others, in order. */
  lemma {:induction false} FailedRowsGo(rows: seq<Row>, sub: string, row: Row)
    requires sub != ""
    ensures row in Without(rows, sub) <==> row in rows && row.submissionId != sub
  {
    if rows != [] {
      var init, last := rows[..|rows| - 1], rows[|rows| - 1];
      FailedRowsGo(init, sub, row);
      assert rows == init + [last];
    }
  }

  // ---------------------------------------------------------------- names

  /** Every submission made so far has one of the names up to the counter, and each a different one. */
  ghost predicate WellNamed(s: Shell) {
    (forall i :: 0 <= i < |s.actions| && s.actions[i].SubmitTurn? ==> IsName(s.actions[i].submissionId, s.counter))
    && forall i, j :: 0 <= i < j < |s.actions| && s.actions[i].SubmitTurn? && s.actions[j].SubmitTurn? ==>
                        s.actions[i].submissionId != s.actions[j].submissionId
  }

  ghost predicate IsName(name: string, counter: nat) {
    exists k: nat :: k <= counter && name == SubmissionName(k)
  }

  lemma NewNameIsFresh(name: string, counter: nat, n: nat)
    requires IsName(name, counter) && n > counter
    ensures name != SubmissionName(n)
  {
    var k: nat :| k <= counter && name == SubmissionName(k);
    if SubmissionName(k) == SubmissionName(n) {
      assert SubmissionName(k)[4..] == Decimal(k) && SubmissionName(n)[4..] == Decimal(n);
      DecimalInjective(k, n);
    }
  }

  /** A step's action, and the name it has when it is a submission. */
  ghost predicate NamesNext(s: Shell, next: Shell) {
    next.counter >= s.counter
    && (next.actions == s.actions
        || (|next.actions| == |s.actions| + 1 && next.actions[..|s.actions|] == s.actions
            && (next.actions[|s.actions|].SubmitTurn? ==>
                  next.counter > s.counter && next.actions[|s.actions|].submissionId == SubmissionName(next.counter))))
  }

  lemma EventNamesNext(s: Shell, e: HostEvent)
    ensures NamesNext(s, Applied(s, e))
  {
    if e.RunCompleted? {
      assert Ended(s, e.runId).actions == s.actions && Ended(s, e.runId).counter == s.counter;
    }
  }

  lemma EnterNamesNext(s: Shell, value: string, tokens: seq<Token>)
    ensures NamesNext(s, Submitted(s, value, tokens))
  {
  }

  lemma KeyNamesNext(s: Shell, k: Key)
    ensures NamesNext(s, Pressed(s, k))
  {
    if k.Enter? {
      EnterNamesNext(s, k.value, k.tokens);
    }
  }

  lemma StepStaysNamed(s: Shell, next: Shell)
    requires WellNamed(s) && NamesNext(s, next)
    ensures WellNamed(next)
  {
    forall i | 0 <= i < |next.actions| && next.actions[i].SubmitTurn?
      ensures IsName(next.actions[i].submissionId, next.counter)
    {
      if i < |s.actions| {
        assert next.actions[i] == s.actions[i];
        var k: nat :| k <= s.counter && s.actions[i].submissionId == SubmissionName(k);
      }
    }
    forall i, j | 0 <= i < j < |next.actions| && next.actions[i].SubmitTurn? && next.actions[j].SubmitTurn?
      ensures next.actions[i].submissionId != next.actions[j].submissionId
    {
      assert next.actions[i] == s.actions[i];
      if j < |s.actions| {
        assert next.actions[j] == s.actions[j];
      } else {
        NewNameIsFresh(s.actions[i].submissionId, s.counter, next.counter);
      }
    }
  }

  lemma StepNames(s: Shell, x: Input)
    ensures NamesNext(s, Stepped(s, x))
  {
    match x
    case Event(e) => EventNamesNext(s, e);
    case KeyPress(k) => KeyNamesNext(s, k);
  }

  /** Over every run no two submissions have the same name. */
  lemma {:induction false} NamesNeverRepeat(s: Shell, xs: seq<Input>)
    requires WellNamed(s)
    ensures WellNamed(Ran(s, xs))
  {
    if xs != [] {
      var init, last := xs[..|xs| - 1], xs[|xs| - 1];
      NamesNeverRepeat(s, init);
      StepNames(Ran(s, init), last);
      StepStaysNamed(Ran(s, init), Stepped(Ran(s, init), last));
    }
  }

  // ---------------------------------------------------------------- one placeholder each

  /** No assistant row has the submission of an earlier one. */
  ghost predicate NoTwins(rows: seq<Row>) {
    if rows == [] then true
    else
      var init, last := rows[..|rows| - 1], rows[|rows| - 1];
      NoTwins(init)
      && (last.role == Assistant && last.submissionId != "" ==>
            forall r :: r in init ==> !IsPlaceholder(r, last.submissionId))
  }

  ghost predicate RowsNamed(rows: seq<Row>, counter: nat) {
    NoTwins(rows) && forall r :: r in rows && r.submissionId != "" ==> IsName(r.submissionId, counter)
  }

  lemma NoTwinsOfSnoc(rows: seq<Row>, row: Row)
    requires NoTwins(rows)
    requires row.role == Assistant && row.submissionId != "" ==>
               forall r :: r in rows ==> !IsPlaceholder(r, row.submissionId)
    ensures NoTwins(rows + [row])
  {
    assert (rows + [row])[..|rows|] == rows;
  }

  lemma {:induction false} ShapeHasNoTwins(rows: seq<Row>, next: seq<Row>)
    requires NoTwins(rows) && SameShape(next, rows)
    ensures NoTwins(next)
  {
    if rows != [] {
      var n := |rows| - 1;
      ShapeHasNoTwins(rows[..n], next[..n]);
      forall r | r in next[..n] && next[n].submissionId != "" && next[n].role == Assistant
        ensures !IsPlaceholder(r, next[n].submissionId)
      {
        var i :| 0 <= i < n && next[i] == r;
        assert rows[i] in rows[..n] && rows[n].submissionId == next[n].submissionId;
      }
    }
  }

  lemma ShapeStaysNamed(rows: seq<Row>, next: seq<Row>, counter: nat)
    requires RowsNamed(rows, counter) && SameShape(next, rows)
    ensures RowsNamed(next, counter)
  {
    ShapeHasNoTwins(rows, next);
    forall r | r in next && r.submissionId != "" ensures IsName(r.submissionId, counter) {
      var i :| 0 <= i < |next| && next[i] == r;
      assert rows[i] in rows;
    }
  }

  lemma {:induction false} WithoutStaysNamed(rows: seq<Row>, sub: string, counter: nat)
    requires RowsNamed(rows, counter)
    ensures RowsNamed(Without(rows, sub), counter)
  {
    if rows != [] && sub != "" {
      var init, last := rows[..|rows| - 1], rows[|rows| - 1];
      assert rows == init + [last];
      WithoutStaysNamed(init, sub, counter);
      forall r ensures r in Without(init, sub) <==> r in init && r.submissionId != sub {
        FailedRowsGo(init, sub, r);
      }
      if last.submissionId != sub {
        NoTwinsOfSnoc(Without(init, sub), last);
      } else {
        assert Without(init, sub) + [] == Without(init, sub);
      }
    }
  }

  lemma NamelessStaysNamed(rows: seq<Row>, row: Row, counter: nat)
    requires RowsNamed(rows, counter) && row.submissionId == ""
    ensures RowsNamed(rows + [row], counter)
  {
    NoTwinsOfSnoc(rows, row);
  }

  lemma CounterGrows(rows: seq<Row>, counter: nat, more: nat)
    requires RowsNamed(rows, counter) && counter <= more
    ensures RowsNamed(rows, more)
  {
    forall r | r in rows && r.submissionId != "" ensures IsName(r.submissionId, more) {
      var k: nat :| k <= counter && r.submissionId == SubmissionName(k);
    }
  }

  lemma NewNameHasNoRow(rows: seq<Row>, counter: nat, n: nat)
    requires RowsNamed(rows, counter) && n > counter
    ensures forall r :: r in rows ==> !IsPlaceholder(r, SubmissionName(n))
  {
    forall r | r in rows ensures !IsPlaceholder(r, SubmissionName(n)) {
      assert SubmissionName(n) != "";
      if r.submissionId != "" {
        NewNameIsFresh(r.submissionId, counter, n);
      }
    }
  }

  lemma RowStaysNamed(rows: seq<Row>, row: Row, counter: nat)
    requires RowsNamed(rows, counter) && IsName(row.submissionId, counter)
    requires row.role == Assistant ==> forall r :: r in rows ==> !IsPlaceholder(r, row.submissionId)
    ensures RowsNamed(rows + [row], counter)
  {
    NoTwinsOfSnoc(rows, row);
  }

  lemma PairStaysNamed(rows: seq<Row>, counter: nat, n: nat, user: Row, assistant: Row)
    requires RowsNamed(rows, counter) && n > counter && user.role == User && assistant.role == Assistant
    requires user.submissionId == assistant.submissionId == SubmissionName(n)
    ensures RowsNamed(rows + [user] + [assistant], n)
  {
    assert IsName(SubmissionName(n), n);
    NewNameHasNoRow(rows, counter, n);
    CounterGrows(rows, counter, n);
    RowStaysNamed(rows, user, n);
    RowStaysNamed(rows + [user], assistant, n);
  }

  lemma BegunStaysNamed(s: Shell, content: string, entries: seq<string>, tokens: seq<Token>, source: Source)
    requires RowsNamed(s.rows, s.counter)
    ensures var next := Begun(s, content, entries, tokens, source); RowsNamed(next.rows, next.counter)
  {
    var pair := Optimistic(SubmissionName(s.counter + 1), Sse.Trim(content), entries, tokens);
    PairStaysNamed(s.rows, s.counter, s.counter + 1, pair[0], pair[1]);
    assert s.rows + pair == s.rows + [pair[0]] + [pair[1]];
  }

  lemma ReleasedStaysNamed(s: Shell)
    requires RowsNamed(s.rows, s.counter)
    ensures RowsNamed(Released(s).rows, Released(s).counter)
  {
    var items := if s.merging == [] then s.queued else s.merging;
    if items != [] {
      var left, m := if s.merging == [] then [] else s.queued, Merged(items);
      BegunStaysNamed(s.(queued := left, merging := []), m.text, m.entries, m.tokens, QueueRelease);
    }
  }

  lemma RunEventStaysNamed(s: Shell, e: HostEvent)
    requires RowsNamed(s.rows, s.counter) && OfRun(e)
    ensures RowsNamed(Applied(s, e).rows, Applied(s, e).counter)
  {
    if e.RunStarted? {
      CorrelateKeepsShape(s.rows, e.submissionId, e.runId);
      ShapeStaysNamed(s.rows, Correlate(s.rows, e.submissionId, e.runId), s.counter);
      NamelessStaysNamed(s.rows, BLANK.(role := Assistant, runId := e.runId, streaming := true), s.counter);
    } else if e.RunDelta? {
      ShapeStaysNamed(s.rows, AppendText(s.rows, e.runId, e.delta), s.counter);
    } else {
      ShapeStaysNamed(s.rows, EndRow(s.rows, e.runId), s.counter);
      ReleasedStaysNamed(Ended(s, e.runId));
    }
  }

  lemma EventStaysNamed(s: Shell, e: HostEvent)
    requires RowsNamed(s.rows, s.counter)
    ensures RowsNamed(Applied(s, e).rows, Applied(s, e).counter)
  {
    if OfRun(e) {
      RunEventStaysNamed(s, e);
    } else {
      match e
      case SubmissionAccepted(sub, run) =>
        CorrelateKeepsShape(s.rows, sub, run);
        ShapeStaysNamed(s.rows, Correlate(s.rows, sub, run), s.counter);
      case SubmissionFailed(sub) => WithoutStaysNamed(s.rows, sub, s.counter);
      case PermissionRequested(id, summary) =>
        NamelessStaysNamed(
          s.rows, BLANK.(role := EventRow, text := summary, requestId := id, status := "requested"), s.counter);
      case PermissionResolved(id, outcome) =>
        MarkKeepsShape(s.rows, id, StatusFor(outcome));
        ShapeStaysNamed(s.rows, MarkRequest(s.rows, id, StatusFor(outcome)), s.counter);
      case HostInfo(text) => NamelessStaysNamed(s.rows, BLANK.(text := text), s.counter);
      case _ =>
    }
  }

  lemma EnterStaysNamed(s: Shell, value: string, tokens: seq<Token>)
    requires RowsNamed(s.rows, s.counter)
    ensures RowsNamed(Submitted(s, value, tokens).rows, Submitted(s, value, tokens).counter)
  {
    var content := Sse.Trim(value);
    if content == "" && tokens == [] {
      ReleasedStaysNamed(s);
    } else if IsCommand(content, tokens) {
      assert Submitted(s, value, tokens).rows == s.rows;
    } else if s.streaming || HasQueue(s) {
      CounterGrows(s.rows, s.counter, s.counter + 1);
      ReleasedStaysNamed(Enqueued(s, content, tokens));
    } else {
      BegunStaysNamed(s, content, [], tokens, Direct);
    }
  }

  lemma KeyStaysNamed(s: Shell, k: Key)
    requires RowsNamed(s.rows, s.counter)
    ensures RowsNamed(Pressed(s, k).rows, Pressed(s, k).counter)
  {
    if k.Enter? {
      EnterStaysNamed(s, k.value, k.tokens);
    } else {
      assert Pressed(s, k).rows == s.rows && Pressed(s, k).counter == s.counter;
    }
  }

  /** Over every run a submission has at most one assistant row, so an acceptance finds the right one. */
  lemma {:induction false} OnePlaceholderEach(s: Shell, xs: seq<Input>)
    requires RowsNamed(s.rows, s.counter)
    ensures RowsNamed(Ran(s, xs).rows, Ran(s, xs).counter)
  {
    if xs != [] {
      var init, last := xs[..|xs| - 1], xs[|xs| - 1];
      OnePlaceholderEach(s, init);
      match last
      case Event(e) => EventStaysNamed(Ran(s, init), e);
      case KeyPress(k) => KeyStaysNamed(Ran(s, init), k);
    }
  }

  lemma {:induction false} TwinsAreOne(rows: seq<Row>, i: nat, j: nat, sub: string)
    requires NoTwins(rows) && i < |rows| && j < |rows| && sub != ""
    requires IsPlaceholder(rows[i], sub) && IsPlaceholder(rows[j], sub)
    ensures i == j
  {
    var n := |rows| - 1;
    assert forall k :: 0 <= k < n ==> rows[k] in rows[..n];
    if i < n && j < n {
      TwinsAreOne(rows[..n], i, j, sub);
    }
  }
}
