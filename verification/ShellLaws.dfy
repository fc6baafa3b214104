/** What the shell keeps over every run of events and keys. */
module ShellLaws {
  import opened Shell
  import Sse

  datatype Input = Event(event: HostEvent) | KeyPress(key: Key)

  function Stepped(s: Shell, x: Input): Shell {
    match x
    case Event(e) => Applied(s, e)
    case KeyPress(k) => Pressed(s, k)
  }

  function Ran(s: Shell, xs: seq<Input>): Shell {
    if xs == [] then s else Stepped(Ran(s, xs[..|xs| - 1]), xs[|xs| - 1])
  }

  /** Events touch the queue and the actions only by completing a run or clearing the transcript. */
  lemma EventFrame(s: Shell, e: HostEvent)
    requires !e.RunCompleted? && !e.TranscriptClear?
    ensures var next := Applied(s, e);
            next.actions == s.actions && next.queued == s.queued && next.merging == s.merging
            && (next.streaming == s.streaming || next.streaming || EndsStreaming(Event(e)))
  {
  }

  /** Events that end the streaming of a run or a submission. */
  predicate EndsStreaming(x: Input) {
    x.Event? && (x.event.RunCompleted? || x.event.RunStopped? || x.event.RunFailed? || x.event.SubmissionFailed?)
  }

  // ---------------------------------------------------------------- queue conservation

  /** What the user typed for the model: entries and tokens. */
  datatype Typing = Typing(entries: seq<string>, tokens: seq<Token>)

  function Plus(a: Typing, b: Typing): Typing {
    Typing(a.entries + b.entries, a.tokens + b.tokens)
  }

  function EntryOf(text: string): seq<string> {
    if text == "" then [] else [text]
  }

  /** A submission's entries, or its text when it has none. */
  function ActionTyping(a: Action): Typing {
    match a
    case SubmitTurn(_, entries, text, tokens, _) => Typing(if entries == [] then EntryOf(text) else entries, tokens)
    case _ => Typing([], [])
  }

  function ActionsTyping(actions: seq<Action>): Typing {
    if actions == [] then Typing([], [])
    else Plus(ActionsTyping(actions[..|actions| - 1]), ActionTyping(actions[|actions| - 1]))
  }

  function QueuedTyping(items: seq<Queued>): Typing {
    if items == [] then Typing([], [])
    else
      var item := items[|items| - 1];
      Plus(QueuedTyping(items[..|items| - 1]),
           Typing(if item.entries != [] then item.entries else EntryOf(Sse.Trim(item.text)), item.tokens))
  }

  /** Everything typed that the shell has submitted or still holds, oldest first. */
  function Held(s: Shell): Typing {
    Plus(ActionsTyping(s.actions), QueuedTyping(s.merging + s.queued))
  }

  function InputTyping(x: Input): Typing {
    match x
    case KeyPress(Enter(value, tokens)) =>
      var content := Sse.Trim(value);
      if IsCommand(content, tokens) then Typing([], []) else Typing(EntryOf(content), tokens)
    case _ => Typing([], [])
  }

  function InputsTyping(xs: seq<Input>): Typing {
    if xs == [] then Typing([], []) else Plus(InputsTyping(xs[..|xs| - 1]), InputTyping(xs[|xs| - 1]))
  }

  lemma PlusLaws(a: Typing, b: Typing, c: Typing)
    ensures Plus(Plus(a, b), c) == Plus(a, Plus(b, c)) && Plus(a, Typing([], [])) == a && Plus(Typing([], []), a) == a
  {
  }

  lemma {:induction false} TrimTwice(s: string)
    ensures Sse.Trim(Sse.Trim(s)) == Sse.Trim(s)
  {
    LeftStays(s);
    RightStays(Sse.TrimLeft(s));
  }

  lemma {:induction false} LeftStays(s: string)
    ensures Sse.TrimLeft(s) == "" || !Sse.IsSpace(Sse.TrimLeft(s)[0])
  {
    if s != "" && Sse.IsSpace(s[0]) {
      LeftStays(s[1..]);
    }
  }

  lemma {:induction false} RightStays(s: string)
    ensures var t := Sse.TrimRight(s);
            (t == "" || !Sse.IsSpace(t[|t| - 1])) && (t != "" ==> t[0] == s[0])
  {
    if s != "" && Sse.IsSpace(s[|s| - 1]) {
      RightStays(s[..|s| - 1]);
    }
  }

  lemma ActionsTypingOfSnoc(actions: seq<Action>, a: Action)
    ensures ActionsTyping(actions + [a]) == Plus(ActionsTyping(actions), ActionTyping(a))
  {
    assert (actions + [a])[..|actions|] == actions;
  }

  lemma QueuedTypingOfSnoc(items: seq<Queued>, item: Queued)
    ensures QueuedTyping(items + [item]) ==
            Plus(QueuedTyping(items),
                 Typing(if item.entries != [] then item.entries else EntryOf(Sse.Trim(item.text)), item.tokens))
  {
    assert (items + [item])[..|items|] == items;
  }

  /** Merging keeps all entries and tokens in order, and has a text only where it has entries. */
  lemma {:induction false} MergedTyping(items: seq<Queued>)
    ensures Typing(Merged(items).entries, Merged(items).tokens) == QueuedTyping(items)
    ensures Merged(items).entries == [] ==> Merged(items).text == ""
  {
    if items != [] {
      MergedTyping(items[..|items| - 1]);
    }
  }

  lemma ReleasedHolds(s: Shell)
    requires s.merging == []
    ensures Held(Released(s)) == Held(s) && Released(s).merging == []
  {
    if s.queued != [] {
      var m, next := Merged(s.queued), Released(s);
      assert ActionTyping(next.actions[|s.actions|]) == QueuedTyping(s.queued) by {
        MergedTyping(s.queued);
      }
      ActionsTypingOfSnoc(s.actions, next.actions[|s.actions|]);
      assert s.merging + s.queued == s.queued && next.merging + next.queued == [];
      PlusLaws(ActionsTyping(next.actions), Typing([], []), Typing([], []));
    }
  }

  lemma EnqueuedHolds(s: Shell, content: string, tokens: seq<Token>)
    requires s.merging == [] && Sse.Trim(content) == content
    ensures Held(Enqueued(s, content, tokens)) == Plus(Held(s), Typing(EntryOf(content), tokens))
    ensures Enqueued(s, content, tokens).merging == []
  {
    var next, added := Enqueued(s, content, tokens), Typing(EntryOf(content), tokens);
    var item := next.queued[|s.queued|];
    assert item.text == content && item.tokens == tokens && item.entries == if content == "" then [] else [content];
    assert s.merging + s.queued == s.queued && next.merging + next.queued == s.queued + [item];
    assert QueuedTyping(s.queued + [item]) == Plus(QueuedTyping(s.queued), added) by {
      QueuedTypingOfSnoc(s.queued, item);
    }
    PlusLaws(ActionsTyping(s.actions), QueuedTyping(s.queued), added);
  }

  lemma BegunHolds(s: Shell, content: string, tokens: seq<Token>)
    requires s.merging == [] && s.queued == [] && Sse.Trim(content) == content
    ensures Held(Begun(s, content, [], tokens, Direct)) == Plus(Held(s), Typing(EntryOf(content), tokens))
  {
    ActionsTypingOfSnoc(s.actions, SubmitTurn(SubmissionName(s.counter + 1), [], content, tokens, Direct));
    assert s.merging + s.queued == [];
    PlusLaws(ActionsTyping(s.actions), Typing(EntryOf(content), tokens), Typing([], []));
  }

  lemma OtherActionHolds(s: Shell, a: Action)
    requires !a.SubmitTurn?
    ensures ActionsTyping(s.actions + [a]) == ActionsTyping(s.actions)
  {
    ActionsTypingOfSnoc(s.actions, a);
    PlusLaws(ActionsTyping(s.actions), Typing([], []), Typing([], []));
  }

  lemma SubmittedHolds(s: Shell, value: string, tokens: seq<Token>)
    requires s.merging == []
    ensures Held(Submitted(s, value, tokens)) == Plus(Held(s), InputTyping(KeyPress(Enter(value, tokens))))
    ensures Submitted(s, value, tokens).merging == []
  {
    var content := Sse.Trim(value);
    TrimTwice(value);
    PlusLaws(Held(s), Typing([], []), Typing([], []));
    if content == "" && tokens == [] {
      if s.permissions != [] {
        var p := s.permissions[Clamp(s.activePermission, |s.permissions|)];
        OtherActionHolds(s, ResolvePermission(p.requestId, DecisionFor(p.selectedAction)));
      } else {
        ReleasedHolds(s);
      }
    } else if IsCommand(content, tokens) {
      OtherActionHolds(s, RunHostCommand(content));
    } else if s.streaming || HasQueue(s) {
      EnqueuedHolds(s, content, tokens);
      ReleasedHolds(Enqueued(s, content, tokens));
    } else {
      BegunHolds(s, content, tokens);
    }
  }

  lemma KeyHolds(s: Shell, k: Key)
    requires s.merging == []
    ensures Pressed(s, k).merging == [] && Held(Pressed(s, k)) == Plus(Held(s), InputTyping(KeyPress(k)))
  {
    PlusLaws(Held(s), Typing([], []), Typing([], []));
    match k
    case Enter(value, tokens) => SubmittedHolds(s, value, tokens);
    case Escape => OtherActionHolds(s, InterruptRun(s.activeRunId));
    case Shortcut(approve) =>
      if s.permissions != [] {
        var p := s.permissions[Clamp(s.activePermission, |s.permissions|)];
        OtherActionHolds(s, ResolvePermission(p.requestId, if approve then ApproveOnce else Deny));
      }
    case _ =>
  }

  lemma StepHolds(s: Shell, x: Input)
    requires s.merging == [] && x != Event(TranscriptClear)
    ensures Stepped(s, x).merging == []
    ensures Held(Stepped(s, x)) == Plus(Held(s), InputTyping(x))
  {
    match x
    case Event(e) =>
      PlusLaws(Held(s), Typing([], []), Typing([], []));
      if e.RunCompleted? {
        assert Held(Ended(s, e.runId)) == Held(s);
        ReleasedHolds(Ended(s, e.runId));
      } else {
        EventFrame(s, e);
      }
    case KeyPress(k) => KeyHolds(s, k);
  }

  /**
   Queue conservation. While the transcript is not cleared, what has been submitted followed by what
   is still queued is what the user typed, in order: nothing is lost, repeated or reordered by
   queueing, merging and release, whatever events interleave.
   */
  lemma {:induction false} QueueConservation(s: Shell, xs: seq<Input>)
    requires s.merging == [] && Event(TranscriptClear) !in xs
    ensures Ran(s, xs).merging == []
    ensures Held(Ran(s, xs)) == Plus(Held(s), InputsTyping(xs))
  {
    PlusLaws(Held(s), Typing([], []), Typing([], []));
    if xs != [] {
      var init, last := xs[..|xs| - 1], xs[|xs| - 1];
      assert last in xs;
      QueueConservation(s, init);
      StepHolds(Ran(s, init), last);
      PlusLaws(Held(s), InputsTyping(init), InputTyping(last));
    }
  }

  // ---------------------------------------------------------------- one submission at a time

  function Submissions(actions: seq<Action>): nat {
    if actions == [] then 0
    else Submissions(actions[..|actions| - 1]) + if actions[|actions| - 1].SubmitTurn? then 1 else 0
  }

  lemma SubmissionsOfSnoc(actions: seq<Action>, a: Action)
    ensures Submissions(actions + [a]) == Submissions(actions) + if a.SubmitTurn? then 1 else 0
  {
    assert (actions + [a])[..|actions|] == actions;
  }

  /** The one action a step adds, if any. */
  ghost predicate AddsAtMostOne(s: Shell, next: Shell) {
    next.actions == s.actions
    || (|next.actions| == |s.actions| + 1 && next.actions == s.actions + [next.actions[|s.actions|]])
  }

  /** When a step may submit: only from a state that is not streaming. */
  ghost predicate SubmitsWell(s: Shell, next: Shell, idle: bool) {
    AddsAtMostOne(s, next)
    && (next.actions != s.actions && next.actions[|s.actions|].SubmitTurn? ==> idle && next.streaming)
  }

  lemma KeySubmits(s: Shell, k: Key)
    ensures SubmitsWell(s, Pressed(s, k), !s.streaming) && (s.streaming ==> Pressed(s, k).streaming)
  {
  }

  lemma EventSubmits(s: Shell, e: HostEvent)
    ensures SubmitsWell(s, Applied(s, e), e.RunCompleted?)
    ensures s.streaming && !EndsStreaming(Event(e)) ==> Applied(s, e).streaming
  {
    if !e.RunCompleted? && !e.TranscriptClear? {
      EventFrame(s, e);
    }
  }

  /** A step submits at most once, never from a state still streaming, and streams afterwards. */
  lemma StepSubmits(s: Shell, x: Input)
    ensures Submissions(s.actions) <= Submissions(Stepped(s, x).actions) <= Submissions(s.actions) + 1
    ensures Submissions(Stepped(s, x).actions) > Submissions(s.actions) ==>
              (if x.Event? then x.event.RunCompleted? else !s.streaming) && Stepped(s, x).streaming
    ensures s.streaming && !EndsStreaming(x) ==> Stepped(s, x).streaming
  {
    match x
    case Event(e) => EventSubmits(s, e);
    case KeyPress(k) => KeySubmits(s, k);
    var next := Stepped(s, x);
    if next.actions != s.actions {
      SubmissionsOfSnoc(s.actions, next.actions[|s.actions|]);
    }
  }

  /** Once streaming, nothing is submitted until an event ends it: follow-ups wait in the queue. */
  lemma {:induction false} StreamingHoldsQueue(s: Shell, xs: seq<Input>)
    requires s.streaming && forall x :: x in xs ==> !EndsStreaming(x)
    ensures Ran(s, xs).streaming && Submissions(Ran(s, xs).actions) == Submissions(s.actions)
  {
    if xs != [] {
      var last := xs[|xs| - 1];
      assert last in xs;
      StreamingHoldsQueue(s, xs[..|xs| - 1]);
      StepSubmits(Ran(s, xs[..|xs| - 1]), last);
    }
  }

  // ---------------------------------------------------------------- user rows have their assistant row

  /** Every user row is followed at once by the assistant row of its submission. */
  ghost predicate RowsPaired(rows: seq<Row>) {
    forall i :: 0 <= i < |rows| && rows[i].role == User ==>
                  i + 1 < |rows| && rows[i + 1].role == Assistant && rows[i + 1].submissionId == rows[i].submissionId
  }

  /** Same roles and submissions, whatever else was updated. */
  ghost predicate SameShape(a: seq<Row>, b: seq<Row>) {
    |a| == |b| && forall i :: 0 <= i < |a| ==> a[i].role == b[i].role && a[i].submissionId == b[i].submissionId
  }

  lemma {:induction false} CorrelateKeepsShape(rows: seq<Row>, submissionId: string, runId: string)
    ensures SameShape(Correlate(rows, submissionId, runId), rows)
  {
    if rows != [] {
      CorrelateKeepsShape(rows[1..], submissionId, runId);
    }
  }

  lemma {:induction false} MarkKeepsShape(rows: seq<Row>, requestId: string, status: string)
    ensures SameShape(MarkRequest(rows, requestId, status), rows)
  {
    if rows != [] {
      MarkKeepsShape(rows[1..], requestId, status);
    }
  }

  lemma WithoutOfSnoc(rows: seq<Row>, row: Row, submissionId: string)
    requires submissionId != ""
    ensures Without(rows + [row], submissionId) ==
            Without(rows, submissionId) + if row.submissionId == submissionId then [] else [row]
  {
    assert (rows + [row])[..|rows|] == rows;
  }

  lemma WithoutOfPair(front: seq<Row>, user: Row, assistant: Row, submissionId: string)
    requires submissionId != "" && RowsPaired(Without(front, submissionId))
    requires assistant.role == Assistant && assistant.submissionId == user.submissionId
    ensures RowsPaired(Without(front + [user] + [assistant], submissionId))
  {
    WithoutOfSnoc(front, user, submissionId);
    WithoutOfSnoc(front + [user], assistant, submissionId);
    if user.submissionId != submissionId {
      PairExtends(Without(front, submissionId), user, assistant);
    } else {
      assert Without(front, submissionId) + [] == Without(front, submissionId);
    }
  }

  lemma WithoutOfOther(front: seq<Row>, row: Row, submissionId: string)
    requires submissionId != "" && RowsPaired(Without(front, submissionId)) && row.role != User
    ensures RowsPaired(Without(front + [row], submissionId))
  {
    WithoutOfSnoc(front, row, submissionId);
    if row.submissionId != submissionId {
      AppendKeepsPairs(Without(front, submissionId), [row]);
    } else {
      assert Without(front, submissionId) + [] == Without(front, submissionId);
    }
  }

  /** Removing a submission removes both its rows or neither. */
  lemma {:induction false} WithoutKeepsPairs(rows: seq<Row>, submissionId: string)
    requires RowsPaired(rows)
    ensures RowsPaired(Without(rows, submissionId))
  {
    var n := |rows|;
    if n > 0 && submissionId != "" {
      if n > 1 && rows[n - 2].role == User {
        PrefixKeepsPairs(rows, n - 2);
        WithoutKeepsPairs(rows[..n - 2], submissionId);
        WithoutOfPair(rows[..n - 2], rows[n - 2], rows[n - 1], submissionId);
        assert rows == rows[..n - 2] + [rows[n - 2]] + [rows[n - 1]];
      } else {
        PrefixKeepsPairs(rows, n - 1);
        WithoutKeepsPairs(rows[..n - 1], submissionId);
        WithoutOfOther(rows[..n - 1], rows[n - 1], submissionId);
        assert rows == rows[..n - 1] + [rows[n - 1]];
      }
    }
  }

  lemma PrefixKeepsPairs(rows: seq<Row>, n: nat)
    requires RowsPaired(rows) && n <= |rows| && (n > 0 ==> rows[n - 1].role != User)
    ensures RowsPaired(rows[..n])
  {
    assert forall i :: 0 <= i < n ==> rows[..n][i] == rows[i];
  }

  lemma PairExtends(rows: seq<Row>, user: Row, assistant: Row)
    requires RowsPaired(rows) && assistant.role == Assistant && assistant.submissionId == user.submissionId
    ensures RowsPaired(rows + [user] + [assistant])
  {
    AppendKeepsPairs(rows, [user, assistant]);
    assert rows + [user] + [assistant] == rows + [user, assistant];
  }

  lemma AppendKeepsPairs(rows: seq<Row>, more: seq<Row>)
    requires RowsPaired(rows) && RowsPaired(more)
    ensures RowsPaired(rows + more)
  {
    var all := rows + more;
    forall i | 0 <= i < |all| && all[i].role == User
      ensures i + 1 < |all| && all[i + 1].role == Assistant && all[i + 1].submissionId == all[i].submissionId
    {
      if i < |rows| {
        assert rows[i].role == User && i + 1 < |rows|;
      } else {
        assert all[i] == more[i - |rows|];
      }
    }
  }

  lemma BegunKeepsPairs(s: Shell, content: string, entries: seq<string>, tokens: seq<Token>, source: Source)
    requires RowsPaired(s.rows)
    ensures RowsPaired(Begun(s, content, entries, tokens, source).rows)
  {
    AppendKeepsPairs(s.rows, Optimistic(SubmissionName(s.counter + 1), Sse.Trim(content), entries, tokens));
  }

  lemma ReleasedKeepsPairs(s: Shell)
    requires RowsPaired(s.rows)
    ensures RowsPaired(Released(s).rows)
  {
    var items := if s.merging == [] then s.queued else s.merging;
    if items != [] {
      var left := if s.merging == [] then [] else s.queued;
      var m := Merged(items);
      BegunKeepsPairs(s.(queued := left, merging := []), m.text, m.entries, m.tokens, QueueRelease);
    }
  }

  lemma ShapeKeepsPairs(rows: seq<Row>, next: seq<Row>)
    requires RowsPaired(rows) && SameShape(next, rows)
    ensures RowsPaired(next)
  {
  }

  lemma EndKeepsPairs(s: Shell, runId: string)
    requires RowsPaired(s.rows)
    ensures RowsPaired(Ended(s, runId).rows) && RowsPaired(Released(Ended(s, runId)).rows)
  {
    ShapeKeepsPairs(s.rows, EndRow(s.rows, runId));
    ReleasedKeepsPairs(Ended(s, runId));
  }

  lemma StartKeepsPairs(s: Shell, submissionId: string, runId: string)
    requires RowsPaired(s.rows)
    ensures RowsPaired(Started(s, submissionId, runId).rows)
  {
    CorrelateKeepsShape(s.rows, submissionId, runId);
    ShapeKeepsPairs(s.rows, Correlate(s.rows, submissionId, runId));
    AppendKeepsPairs(s.rows, [BLANK.(role := Assistant, runId := runId, streaming := true)]);
  }

  lemma RequestKeepsPairs(s: Shell, requestId: string, summary: string, outcome: PermissionOutcome)
    requires RowsPaired(s.rows)
    ensures RowsPaired(Requested(s, requestId, summary).rows) && RowsPaired(Resolved(s, requestId, outcome).rows)
  {
    AppendKeepsPairs(
      s.rows, [BLANK.(role := EventRow, text := summary, requestId := requestId, status := "requested")]);
    MarkKeepsShape(s.rows, requestId, StatusFor(outcome));
    ShapeKeepsPairs(s.rows, MarkRequest(s.rows, requestId, StatusFor(outcome)));
  }

  predicate OfRun(e: HostEvent) {
    e.RunStarted? || e.RunDelta? || e.RunCompleted? || e.RunStopped? || e.RunFailed?
  }

  lemma RunKeepsPairs(s: Shell, e: HostEvent)
    requires RowsPaired(s.rows) && OfRun(e)
    ensures RowsPaired(Applied(s, e).rows)
  {
    if e.RunStarted? {
      StartKeepsPairs(s, e.submissionId, e.runId);
    } else if e.RunDelta? {
      ShapeKeepsPairs(s.rows, AppendText(s.rows, e.runId, e.delta));
    } else {
      EndKeepsPairs(s, e.runId);
    }
  }

  lemma AcceptKeepsPairs(s: Shell, submissionId: string, runId: string)
    requires RowsPaired(s.rows)
    ensures RowsPaired(Correlate(s.rows, submissionId, runId))
  {
    CorrelateKeepsShape(s.rows, submissionId, runId);
    ShapeKeepsPairs(s.rows, Correlate(s.rows, submissionId, runId));
  }

  lemma EventKeepsPairs(s: Shell, e: HostEvent)
    requires RowsPaired(s.rows)
    ensures RowsPaired(Applied(s, e).rows)
  {
    if OfRun(e) {
      RunKeepsPairs(s, e);
    } else {
      match e
      case SubmissionAccepted(sub, run) => AcceptKeepsPairs(s, sub, run);
      case SubmissionFailed(sub) => WithoutKeepsPairs(s.rows, sub);
      case PermissionRequested(id, summary) => RequestKeepsPairs(s, id, summary, Denied);
      case PermissionResolved(id, outcome) => RequestKeepsPairs(s, id, "", outcome);
      case HostInfo(text) => AppendKeepsPairs(s.rows, [BLANK.(text := text)]);
      case _ =>
    }
  }

  lemma KeyKeepsPairs(s: Shell, k: Key)
    requires RowsPaired(s.rows)
    ensures RowsPaired(Pressed(s, k).rows)
  {
    if k.Enter? {
      var content := Sse.Trim(k.value);
      ReleasedKeepsPairs(s);
      ReleasedKeepsPairs(Enqueued(s, content, k.tokens));
      BegunKeepsPairs(s, content, [], k.tokens, Direct);
    }
  }

  /** The user never sees their row without its assistant row, in any run. */
  lemma {:induction false} RowsStayPaired(s: Shell, xs: seq<Input>)
    requires RowsPaired(s.rows)
    ensures RowsPaired(Ran(s, xs).rows)
  {
    if xs != [] {
      RowsStayPaired(s, xs[..|xs| - 1]);
      var before := Ran(s, xs[..|xs| - 1]);
      match xs[|xs| - 1]
      case Event(e) => EventKeepsPairs(before, e);
      case KeyPress(k) => KeyKeepsPairs(before, k);
    }
  }
}
