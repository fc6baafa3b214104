/**
 The harness handles each tool call in a task of its own (internal/harness/connection.go), so calls
 reach the dispatcher in any order. Its duplicate check still lets each through once.
 */
module ToolOrder {
  import opened ToolEffects
  import Dispatcher

  lemma {:induction false} DistinctFits(ids: seq<string>, all: set<string>)
    requires Distinct(ids) && forall id :: id in ids ==> id in all
    ensures |ids| <= |all|
  {
    if ids != [] {
      var init, last := ids[..|ids| - 1], ids[|ids| - 1];
      assert last in ids && forall id :: id in init ==> id in ids;
      DistinctFits(init, all - {last});
    }
  }

  lemma {:induction false} DistinctCounts(ids: seq<string>, id: string)
    requires Distinct(ids)
    ensures multiset(ids)[id] == if id in ids then 1 else 0
  {
    if ids != [] {
      var init, last := ids[..|ids| - 1], ids[|ids| - 1];
      assert ids == init + [last];
      DistinctCounts(init, id);
    }
  }

  lemma WindowHolds(ring: seq<string>, ids: seq<string>, id: string)
    requires |ids| <= Dispatcher.SEEN_CAPACITY && id !in ring
    ensures id in Dispatcher.LastOf(ring + ids, Dispatcher.SEEN_CAPACITY) <==> id in ids
  {
    var window := Dispatcher.LastOf(ring + ids, Dispatcher.SEEN_CAPACITY);
    assert |window| >= |ids| && window[|window| - |ids|..] == ids;
    assert forall other :: other in window ==> other in ring + ids;
  }

  /** Handing over one more call with a new identifier, while all that passed fit the window. */
  lemma OneMoreNew(st: Dispatcher.State, rs: seq<Dispatcher.Request>, r: Dispatcher.Request)
    requires Dispatcher.Valid(st) && r.call.id != "" && r.call.id !in st.seen
    requires |Dispatcher.Accepted(st, rs)| <= Dispatcher.SEEN_CAPACITY
    ensures var passed := Dispatcher.Accepted(st, rs);
            Dispatcher.Accepted(st, rs + [r]) == if r.call.id in passed then passed else passed + [r.call.id]
  {
    var passed := Dispatcher.Accepted(st, rs);
    Dispatcher.AcceptedOfSnoc(st, rs, r);
    Dispatcher.AcceptedExactly(st, rs, r.call.id);
    WindowHolds(st.ring, passed, r.call.id);
    assert passed + [] == passed;
  }

  /** Without repeats, and with the elements of the other list. */
  ghost predicate OnceEach(ids: seq<string>, others: seq<string>) {
    Distinct(ids) && forall id :: id in ids <==> id in others
  }

  lemma OnceEachGrows(ids: seq<string>, others: seq<string>, id: string)
    requires OnceEach(ids, others)
    ensures OnceEach(if id in ids then ids else ids + [id], others + [id])
  {
    assert (ids + [id])[..|ids|] == ids;
  }

  lemma FewPass(rs: seq<Dispatcher.Request>, passed: seq<string>, all: set<string>)
    requires (forall r :: r in rs ==> r.call.id in all) && OnceEach(passed, Dispatcher.RequestIds(rs))
    ensures |passed| <= |all|
  {
    forall id | id in passed ensures id in all {
      var i :| 0 <= i < |rs| && Dispatcher.RequestIds(rs)[i] == id;
      assert rs[i] in rs;
    }
    DistinctFits(passed, all);
  }

  lemma OnceEachStep(st: Dispatcher.State, rs: seq<Dispatcher.Request>, r: Dispatcher.Request)
    requires Dispatcher.Valid(st) && r.call.id != "" && r.call.id !in st.seen
    requires |Dispatcher.Accepted(st, rs)| <= Dispatcher.SEEN_CAPACITY
    requires OnceEach(Dispatcher.Accepted(st, rs), Dispatcher.RequestIds(rs))
    ensures OnceEach(Dispatcher.Accepted(st, rs + [r]), Dispatcher.RequestIds(rs + [r]))
  {
    OneMoreNew(st, rs, r);
    OnceEachGrows(Dispatcher.Accepted(st, rs), Dispatcher.RequestIds(rs), r.call.id);
    assert Dispatcher.RequestIds(rs + [r]) == Dispatcher.RequestIds(rs) + [r.call.id];
  }

  /** At most 1024 new identifiers, in any order and repeated at will: each passes the check exactly once. */
  lemma {:induction false} NewOnesPassOnce(st: Dispatcher.State, rs: seq<Dispatcher.Request>, all: set<string>)
    requires Dispatcher.Valid(st) && |all| <= Dispatcher.SEEN_CAPACITY
    requires forall r :: r in rs ==> r.call.id in all
    requires forall id :: id in all ==> id != "" && id !in st.seen
    ensures OnceEach(Dispatcher.Accepted(st, rs), Dispatcher.RequestIds(rs))
  {
    if rs != [] {
      var init, last := rs[..|rs| - 1], rs[|rs| - 1];
      assert rs == init + [last] && last in rs;
      NewOnesPassOnce(st, init, all);
      FewPass(init, Dispatcher.Accepted(st, init), all);
      OnceEachStep(st, init, last);
    }
  }

  lemma {:induction false} EmittedAreCalls(blocks: seq<Block>, id: string)
    ensures id in Ids(Emitted(blocks)) <==> id in Ids(Calls(blocks))
  {
    if blocks != [] {
      var calls, sent, call := LastBlock(blocks);
      EmittedAreCalls(blocks[..|blocks| - 1], id);
      assert Ids(sent + call) == Ids(sent) + Ids(call);
      assert Ids(calls + call) == Ids(calls) + Ids(call);
      if blocks[|blocks| - 1].Other? && call != [] {
        assert call[0].id == Ids(calls)[|calls| - 1];
      }
    }
  }

  /**
   The harness handles each call in a task of its own. In whatever order the calls that the relay
   sent reach the dispatcher, if the model made at most 1024, each passes the duplicate check once.
   */
  lemma EffectOnceInAnyOrder(blocks: seq<Block>, st: Dispatcher.State, rs: seq<Dispatcher.Request>)
    requires Dispatcher.Valid(st) && Distinct(Ids(Calls(blocks))) && |Calls(blocks)| <= Dispatcher.SEEN_CAPACITY
    requires forall id :: id in Ids(Calls(blocks)) ==> id != "" && id !in st.seen
    requires multiset(Dispatcher.RequestIds(rs)) == multiset(Ids(Emitted(blocks)))
    ensures multiset(Dispatcher.Accepted(st, rs)) == multiset(Ids(Calls(blocks)))
  {
    var ids, asked, passed := Ids(Calls(blocks)), Dispatcher.RequestIds(rs), Dispatcher.Accepted(st, rs);
    forall id ensures id in asked <==> id in ids {
      EmittedAreCalls(blocks, id);
      assert id in multiset(asked) <==> id in multiset(Ids(Emitted(blocks)));
    }
    var all := set id | id in ids;
    AtMost(ids);
    forall r | r in rs ensures r.call.id in all {
      var i :| 0 <= i < |rs| && rs[i] == r;
      assert asked[i] in asked;
    }
    NewOnesPassOnce(st, rs, all);
    forall id ensures multiset(passed)[id] == multiset(ids)[id] {
      DistinctCounts(passed, id);
      DistinctCounts(ids, id);
    }
  }

  lemma {:induction false} AtMost(ids: seq<string>)
    ensures |set id | id in ids| <= |ids|
  {
    if ids != [] {
      var init, last := ids[..|ids| - 1], ids[|ids| - 1];
      AtMost(init);
      assert ids == init + [last];
      assert (set id | id in ids) == (set id | id in init) + {last};
    }
  }
}
