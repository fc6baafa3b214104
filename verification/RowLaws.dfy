/** The transcript row of a run: which events leave it alone, and which add to its text. */
module RowLaws {
  import opened Shell
  import Sse

  predicate HasRow(rows: seq<Row>, run: string) {
    FirstRow(rows, run) < |rows|
  }

  function RunRow(rows: seq<Row>, run: string): Row
    requires HasRow(rows, run)
  {
    rows[FirstRow(rows, run)]
  }

  /** No earlier row is a placeholder of the run's own submission. */
  predicate Clean(rows: seq<Row>, run: string, own: string) {
    own == "" || forall k :: 0 <= k < FirstRow(rows, run) ==> !IsPlaceholder(rows[k], own)
  }

  lemma {:induction false} FirstRowAt(rows: seq<Row>, run: string, i: nat)
    requires i <= |rows| && (i < |rows| ==> Carries(rows[i], run)) && forall k :: 0 <= k < i ==> !Carries(rows[k], run)
    ensures FirstRow(rows, run) == i
  {
    if i > 0 {
      FirstRowAt(rows[1..], run, i - 1);
    }
  }

  lemma {:induction false} NoneBeforeFirst(rows: seq<Row>, run: string)
    ensures forall k :: 0 <= k < FirstRow(rows, run) ==> !Carries(rows[k], run)
  {
    if rows != [] && !Carries(rows[0], run) {
      NoneBeforeFirst(rows[1..], run);
    }
  }

  // ---------------------------------------------------------------- what leaves a row alone

  /** The run's row is still there and the same, and still comes first of its submission. */
  predicate KeepsRow(rows: seq<Row>, next: seq<Row>, run: string, own: string) {
    HasRow(rows, run) && Clean(rows, run, own) ==>
      HasRow(next, run) && RunRow(next, run) == RunRow(rows, run) && Clean(next, run, own)
  }

  lemma AppendKeepsRow(rows: seq<Row>, more: seq<Row>, run: string, own: string)
    ensures KeepsRow(rows, rows + more, run, own)
  {
    if HasRow(rows, run) {
      NoneBeforeFirst(rows, run);
      FirstRowAt(rows + more, run, FirstRow(rows, run));
    }
  }

  lemma UpdateKeepsRow(rows: seq<Row>, i: nat, row: Row, run: string, own: string)
    requires i < |rows| && !Carries(rows[i], run) && !Carries(row, run)
    requires row.role == rows[i].role && row.submissionId == rows[i].submissionId
    ensures KeepsRow(rows, rows[i := row], run, own)
  {
    if HasRow(rows, run) {
      NoneBeforeFirst(rows, run);
      FirstRowAt(rows[i := row], run, FirstRow(rows, run));
    }
  }

  lemma {:induction false} WithoutSelects(rows: seq<Row>, gone: string)
    ensures forall r :: r in Without(rows, gone) ==> r in rows
  {
    if rows != [] && gone != "" {
      WithoutSelects(rows[..|rows| - 1], gone);
      assert rows == rows[..|rows| - 1] + [rows[|rows| - 1]];
    }
  }

  lemma NoRowOf(rows: seq<Row>, run: string)
    requires forall r :: r in rows ==> !Carries(r, run)
    ensures !HasRow(rows, run)
  {
    FirstRowAt(rows, run, |rows|);
  }

  /** The first row of a run at the end, after rows that are not its own. */
  lemma LastIsFirst(rows: seq<Row>, last: Row, run: string, own: string)
    requires Carries(last, run) && forall r :: r in rows ==> !Carries(r, run)
    ensures FirstRow(rows + [last], run) == |rows|
    ensures Clean(rows + [last], run, own) <==> own == "" || forall r :: r in rows ==> !IsPlaceholder(r, own)
  {
    var all := rows + [last];
    assert forall k :: 0 <= k < |rows| ==> all[k] == rows[k] && rows[k] in rows;
    FirstRowAt(all, run, |rows|);
    if own != "" && Clean(all, run, own) {
      forall r | r in rows ensures !IsPlaceholder(r, own) {
        var k :| 0 <= k < |rows| && rows[k] == r;
        assert all[k] == r;
      }
    }
  }

  lemma NoneCarries(rows: seq<Row>, run: string)
    requires !HasRow(rows, run)
    ensures forall r :: r in rows ==> !Carries(r, run)
  {
    NoneBeforeFirst(rows, run);
  }

  /** Removing another submission's rows. */
  lemma {:induction false} WithoutKeepsRow(rows: seq<Row>, gone: string, run: string, own: string)
    requires HasRow(rows, run) ==> RunRow(rows, run).submissionId != gone
    ensures KeepsRow(rows, Without(rows, gone), run, own)
  {
    if rows != [] && gone != "" {
      var init, last := rows[..|rows| - 1], rows[|rows| - 1];
      assert rows == init + [last];
      var kept := Without(init, gone);
      WithoutSelects(init, gone);
      if HasRow(init, run) {
        NoneBeforeFirst(init, run);
        FirstRowAt(rows, run, FirstRow(init, run));
        WithoutKeepsRow(init, gone, run, own);
        AppendKeepsRow(kept, [last], run, own);
        assert kept + [] == kept;
      } else {
        NoneCarries(init, run);
        if Carries(last, run) {
          LastIsFirst(init, last, run, own);
          LastIsFirst(kept, last, run, own);
        } else {
          NoRowOf(rows, run);
        }
      }
    }
  }

  /** Marking a request changes the status of one event row. */
  lemma {:induction false} MarkSpares(rows: seq<Row>, requestId: string, status: string)
    ensures var next := MarkRequest(rows, requestId, status);
            |next| == |rows|
            && forall k :: 0 <= k < |rows| ==> next[k] == rows[k] || (rows[k].role == next[k].role == EventRow)
  {
    if rows != [] {
      MarkSpares(rows[1..], requestId, status);
    }
  }

  lemma MarkKeepsRow(rows: seq<Row>, requestId: string, status: string, run: string, own: string)
    ensures KeepsRow(rows, MarkRequest(rows, requestId, status), run, own)
  {
    MarkSpares(rows, requestId, status);
    if HasRow(rows, run) {
      NoneBeforeFirst(rows, run);
      FirstRowAt(MarkRequest(rows, requestId, status), run, FirstRow(rows, run));
    }
  }

  /** Correlating a submission with the run whose row already comes first of it changes nothing. */
  lemma CorrelateKeepsRow(rows: seq<Row>, run: string, own: string)
    requires HasRow(rows, run) && Clean(rows, run, own) && RunRow(rows, run).submissionId == own
    ensures Correlate(rows, own, run) == rows
  {
    if own != "" {
      var i := FirstRow(rows, run);
      CorrelateAt(rows, i, own, run);
      assert rows[i].(runId := run) == rows[i];
    }
  }

  lemma BegunKeepsRow(s: Shell, content: string, entries: seq<string>, tokens: seq<Token>, source: Source, run: string,
                      own: string)
    ensures KeepsRow(s.rows, Begun(s, content, entries, tokens, source).rows, run, own)
  {
    AppendKeepsRow(s.rows, Optimistic(SubmissionName(s.counter + 1), Sse.Trim(content), entries, tokens), run, own);
  }

  lemma ReleasedKeepsRow(s: Shell, run: string, own: string)
    ensures KeepsRow(s.rows, Released(s).rows, run, own)
  {
    var items := if s.merging == [] then s.queued else s.merging;
    if items != [] {
      var left := if s.merging == [] then [] else s.queued;
      var m := Merged(items);
      BegunKeepsRow(s.(queued := left, merging := []), m.text, m.entries, m.tokens, QueueRelease, run, own);
    }
  }

  lemma KeyKeepsRow(s: Shell, k: Key, run: string, own: string)
    ensures KeepsRow(s.rows, Pressed(s, k).rows, run, own)
  {
    if k.Enter? {
      var content := Sse.Trim(k.value);
      if content == "" && k.tokens == [] {
        ReleasedKeepsRow(s, run, own);
      } else if IsCommand(content, k.tokens) {
        assert Pressed(s, k).rows == s.rows;
      } else if s.streaming || HasQueue(s) {
        ReleasedKeepsRow(Enqueued(s, content, k.tokens), run, own);
      } else {
        BegunKeepsRow(s, content, [], k.tokens, Direct, run, own);
      }
    } else {
      assert Pressed(s, k).rows == s.rows;
    }
  }

  /** The row that a run's delta or end goes to is no other run's. */
  lemma OtherRunsRow(rows: seq<Row>, other: string, run: string)
    requires other != "" && run != "" && other != run
    ensures var i := RowIndexFor(rows, other); i >= 0 ==> rows[i].runId != run
  {
  }

  lemma EndKeepsRow(rows: seq<Row>, other: string, run: string, own: string)
    requires other != "" && run != "" && other != run
    ensures KeepsRow(rows, EndRow(rows, other), run, own)
  {
    OtherRunsRow(rows, other, run);
    var i := RowIndexFor(rows, other);
    if i >= 0 {
      UpdateKeepsRow(rows, i, rows[i].(streaming := false), run, own);
    }
  }

  lemma DeltaKeepsRow(rows: seq<Row>, other: string, delta: string, run: string, own: string)
    requires other != "" && run != "" && other != run
    ensures KeepsRow(rows, AppendText(rows, other, delta), run, own)
  {
    OtherRunsRow(rows, other, run);
    var i := RowIndexFor(rows, other);
    if i >= 0 {
      UpdateKeepsRow(rows, i, rows[i].(text := rows[i].text + delta, streaming := true), run, own);
    }
  }

  // ---------------------------------------------------------------- where text goes

  lemma DeltaGrowsRow(rows: seq<Row>, delta: string, run: string, own: string)
    requires run != "" && HasRow(rows, run) && Clean(rows, run, own)
    ensures var next := AppendText(rows, run, delta);
            HasRow(next, run) && Clean(next, run, own)
            && RunRow(next, run) == RunRow(rows, run).(text := RunRow(rows, run).text + delta)
  {
    var i := FirstRow(rows, run);
    NoneBeforeFirst(rows, run);
    if delta != "" {
      FirstRowAt(AppendText(rows, run, delta), run, i);
    } else {
      assert rows[i].text + delta == rows[i].text;
    }
  }

  /**
   Text of a run that has no open row, such as an ended one, goes to the last open row that has no
   run yet; it is dropped exactly when there is none.
   */
  lemma StrayText(rows: seq<Row>, run: string, delta: string)
    requires run != "" && !HasRow(rows, run) && delta != ""
    ensures var i := LastRow(rows, false);
            AppendText(rows, run, delta) ==
            (if i < 0 then rows else rows[i := rows[i].(text := rows[i].text + delta)])
            && (AppendText(rows, run, delta) == rows <==> i < 0)
  {
    var i := LastRow(rows, false);
    if i >= 0 {
      assert |rows[i].text + delta| > |rows[i].text|;
      assert AppendText(rows, run, delta)[i] != rows[i];
    }
  }

  lemma {:induction false} LastOpenRow(rows: seq<Row>, i: int)
    requires -1 <= i < |rows| && (i >= 0 ==> rows[i].role == Assistant && rows[i].streaming)
    requires forall k :: i < k < |rows| ==> !(rows[k].role == Assistant && rows[k].streaming)
    ensures RowIndexFor(rows, "") == i
  {
    if i < |rows| - 1 {
      LastOpenRow(rows[..|rows| - 1], i);
      assert !Fallback(rows[|rows| - 1], true);
      assert RowIndexFor(rows[..|rows| - 1], "") == LastRow(rows[..|rows| - 1], true);
    }
  }

  /** Text and ends without a run are for the last open assistant row, of whatever run, if there is one. */
  lemma NamelessText(rows: seq<Row>, delta: string, i: int)
    requires -1 <= i < |rows| && (i >= 0 ==> rows[i].role == Assistant && rows[i].streaming)
    requires forall k :: i < k < |rows| ==> !(rows[k].role == Assistant && rows[k].streaming)
    ensures AppendText(rows, "", delta) == if i < 0 then rows else rows[i := rows[i].(text := rows[i].text + delta)]
    ensures EndRow(rows, "") == if i < 0 then rows else rows[i := rows[i].(streaming := false)]
  {
    LastOpenRow(rows, i);
    if i >= 0 {
      assert rows[i].text + "" == rows[i].text && rows[i := rows[i]] == rows;
    }
  }
}
