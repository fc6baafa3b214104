/**
 The stored turns of one session (internal/storage): a log listed in order of sequence, with the
 identifier as primary key. Inserting and deleting always succeed except on a taken identifier, which
 is unique over all sessions.
 */
module TurnLog {
  datatype Role = UserRole | AssistantRole | ToolRole | OtherRole(name: string)

  function RoleOf(name: string): Role {
    if name == "user" then UserRole
    else if name == "assistant" then AssistantRole
    else if name == "tool" then ToolRole
    else OtherRole(name)
  }

  lemma RolesSay()
    ensures RoleOf("user") == UserRole && RoleOf("assistant") == AssistantRole && RoleOf("tool") == ToolRole
  {
    assert |"user"| == 4 && |"assistant"| == 9 && "tool"[0] == 't' && "user"[0] == 'u';
  }

  /** What the provider reports about a response; empty for turns that are not one. */
  datatype Usage = Usage(model: string, provider: string, inputTokens: int, outputTokens: int, cost: real,
                         latencyMs: int)

  const NO_USAGE := Usage("", "", 0, 0, 0.0, 0)

  datatype Turn = Turn(id: string, sequence: int, role: Role, content: string, toolCalls: string, usage: Usage,
                       compacted: bool, compactedSummary: string, originalTurns: seq<int>)

  ghost predicate Increasing(log: seq<Turn>) {
    forall i, j :: 0 <= i < j < |log| ==> log[i].sequence < log[j].sequence
  }

  ghost predicate DistinctIds(log: seq<Turn>) {
    forall i, j :: 0 <= i < j < |log| ==> log[i].id != log[j].id
  }

  function Ids(log: seq<Turn>): set<string> {
    set t | t in log :: t.id
  }

  /** The listing after a turn was created. */
  function Inserted(log: seq<Turn>, t: Turn): seq<Turn> {
    if log == [] || t.sequence < log[0].sequence then [t] + log else [log[0]] + Inserted(log[1..], t)
  }

  /** The listing without the turns of these identifiers. */
  function Without(log: seq<Turn>, gone: set<string>): seq<Turn> {
    if log == [] then []
    else
      var kept, last := Without(log[..|log| - 1], gone), log[|log| - 1];
      if last.id in gone then kept else kept + [last]
  }

  class Store {
    var log: seq<Turn>
    var elsewhere: set<string>  // the identifiers of other sessions' turns

    /** Fails on an identifier that any session has. */
    method CreateTurn(t: Turn) returns (ok: bool)
      modifies this`log
      ensures ok == (t.id !in Ids(old(log)) + elsewhere)
      ensures log == if ok then Inserted(old(log), t) else old(log)
    {
      ok := t.id !in Ids(log) && t.id !in elsewhere;
      if ok {
        log := Inserted(log, t);
      }
    }

    /** Deleting an absent turn is no error. */
    method DeleteTurn(id: string)
      modifies this`log
      ensures log == Without(old(log), {id})
    {
      log := Without(log, {id});
    }
  }

  // ---------------------------------------------------------------- inserting

  lemma {:induction false} InsertedBetween(before: seq<Turn>, t: Turn, after: seq<Turn>)
    requires forall u :: u in before ==> u.sequence <= t.sequence
    requires forall u :: u in after ==> t.sequence < u.sequence
    ensures Inserted(before + after, t) == before + [t] + after
  {
    if before == [] {
      assert before + after == after;
      if after != [] {
        assert after[0] in after;
      }
    } else {
      assert before[0] in before && (before + after)[1..] == before[1..] + after;
      InsertedBetween(before[1..], t, after);
    }
  }

  lemma InsertedLast(log: seq<Turn>, t: Turn)
    requires forall u :: u in log ==> u.sequence <= t.sequence
    ensures Inserted(log, t) == log + [t]
  {
    InsertedBetween(log, t, []);
    assert log + [] == log && (log + [t]) + [] == log + [t];
  }

  // ---------------------------------------------------------------- order

  lemma JoinIncreasing(a: seq<Turn>, b: seq<Turn>, m: int)
    requires Increasing(a) && Increasing(b)
    requires (forall t :: t in a ==> t.sequence < m) && forall t :: t in b ==> m <= t.sequence
    ensures Increasing(a + b)
  {
    forall i, j | 0 <= i < j < |a + b| ensures (a + b)[i].sequence < (a + b)[j].sequence {
      if i < |a| <= j {
        assert a[i] in a && b[j - |a|] in b;
      }
    }
  }

  // ---------------------------------------------------------------- deleting

  lemma {:induction false} WithoutConcat(a: seq<Turn>, b: seq<Turn>, gone: set<string>)
    ensures Without(a + b, gone) == Without(a, gone) + Without(b, gone)
  {
    if b == [] {
      assert a + b == a;
    } else {
      assert (a + b)[..|a + b| - 1] == a + b[..|b| - 1];
      WithoutConcat(a, b[..|b| - 1], gone);
    }
  }

  lemma {:induction false} WithoutTwice(log: seq<Turn>, a: set<string>, b: set<string>)
    ensures Without(Without(log, a), b) == Without(log, a + b)
  {
    if log != [] {
      var init, last := log[..|log| - 1], log[|log| - 1];
      WithoutTwice(init, a, b);
      var kept := Without(init, a);
      assert (kept + [last])[..|kept|] == kept;
    }
  }

  lemma {:induction false} WithoutNone(log: seq<Turn>, gone: set<string>)
    requires forall t :: t in log ==> t.id !in gone
    ensures Without(log, gone) == log
  {
    if log != [] {
      assert log[|log| - 1] in log;
      WithoutNone(log[..|log| - 1], gone);
    }
  }
}
