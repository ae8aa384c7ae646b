/** Flashback: the row events of a statement are held back and printed in reverse. */
module Flashback {

  datatype RowEvent = RowEvent(id: nat, stmtEnd: bool)

  /** What the handler does with the row events of a log in flashback mode, no table being ignored. */
  class Printer {
    var held: seq<RowEvent>
    var printed: seq<RowEvent>
    var deleted: seq<nat>

    constructor ()
      ensures held == [] && printed == [] && deleted == []
    {
      held, printed, deleted := [], [], [];
    }

    /** A table map is printed at once; whatever was held is forgotten. */
    method TableMap()
      modifies this`held
      ensures held == []
    {
      held := [];
    }

    /** A row event, and the deletion of it that the handler does on the way out. */
    method Row(ev: RowEvent)
      modifies this
      ensures var all := old(held) + [RowEvent(ev.id, old(held) == [])];
        if ev.stmtEnd then
          && held == [] && printed == old(printed) + Reverse(all)
          && deleted == old(deleted) + Ids(all)
        else
          held == all && printed == old(printed) && deleted == old(deleted)
    {
      var isStmtEnd := ev.stmtEnd;
      var e := ev;
      if isStmtEnd {
        e := e.(stmtEnd := false);
      }
      if held == [] {
        e := e.(stmtEnd := true);
      }
      held := held + [e];
      if isStmtEnd {
        ghost var all := held;
        PrintBackwards();
        DeleteAllButLast();
        held := [];
        deleted := deleted + [ev.id];
        assert all[..|all| - 1] + [all[|all| - 1]] == all;
      }
    }

    method PrintBackwards()
      modifies this`printed
      ensures printed == old(printed) + Reverse(held)
    {
      var i := |held|;
      assert held[|held|..] == [] && Reverse([]) == [] && printed + [] == printed;
      while i > 0
        invariant 0 <= i <= |held|
        invariant printed == old(printed) + Reverse(held[i..])
      {
        assert held[i - 1..] == [held[i - 1]] + held[i..];
        ReverseCons(held[i - 1], held[i..]);
        assert old(printed) + (Reverse(held[i..]) + [held[i - 1]]) == old(printed) + Reverse(held[i..]) + [held[i - 1]];
        printed := printed + [held[i - 1]];
        i := i - 1;
      }
      assert held[0..] == held;
    }

    /** The last one is the event being processed, which the handler deletes itself. */
    method DeleteAllButLast()
      requires held != []
      modifies this`deleted
      ensures deleted == old(deleted) + Ids(held[..|held| - 1])
    {
      assert held[..0] == [];
      for i := 0 to |held| - 1
        invariant deleted == old(deleted) + Ids(held[..i])
      {
        assert held[..i + 1][..i] == held[..i];
        deleted := deleted + [held[i].id];
      }
    }
  }

  function Reverse(s: seq<RowEvent>): seq<RowEvent> {
    if s == [] then [] else Reverse(s[1..]) + [s[0]]
  }

  function Ids(s: seq<RowEvent>): seq<nat> {
    if s == [] then [] else Ids(s[..|s| - 1]) + [s[|s| - 1].id]
  }

  lemma ReverseCons(e: RowEvent, s: seq<RowEvent>)
    ensures Reverse([e] + s) == Reverse(s) + [e]
  {
    assert ([e] + s)[1..] == s;
  }

  lemma {:induction false} ReverseAt(s: seq<RowEvent>, k: nat)
    requires k < |s|
    ensures |Reverse(s)| == |s| && Reverse(s)[k] == s[|s| - 1 - k]
    decreases |s|
  {
    if |s| > 1 {
      ReverseAt(s[1..], if k < |s| - 1 then k else 0);
    }
  }

  lemma {:induction false} IdsAt(s: seq<RowEvent>)
    ensures |Ids(s)| == |s| && forall k :: 0 <= k < |s| ==> Ids(s)[k] == s[k].id
  {
    if s != [] {
      IdsAt(s[..|s| - 1]);
    }
  }

  // ----- statements

  /** A statement: the row events it is logged as, the last of which says so. */
  predicate Statement(s: seq<RowEvent>) {
    s != [] && forall k :: 0 <= k < |s| ==> (s[k].stmtEnd <==> k == |s| - 1)
  }

  /** The held form of a statement: the end flag moves to the event that will be printed last. */
  function Flagged(s: seq<RowEvent>): (r: seq<RowEvent>)
    ensures |r| == |s|
  {
    seq(|s|, k requires 0 <= k < |s| => RowEvent(s[k].id, k == 0))
  }

  /** The events of `s` in exact reverse order, the last one printed saying it is the end. */
  ghost predicate Reversed(out: seq<RowEvent>, s: seq<RowEvent>) {
    && |out| == |s|
    && forall k :: 0 <= k < |s| ==> out[k] == RowEvent(s[|s| - 1 - k].id, k == |s| - 1)
  }

  lemma FlaggedIsReversed(s: seq<RowEvent>)
    ensures Reversed(Reverse(Flagged(s)), s) && Ids(Flagged(s)) == Ids(s)
  {
    var r := Reverse(Flagged(s));
    if s != [] {
      ReverseAt(Flagged(s), 0);
    }
    forall k | 0 <= k < |s| ensures r[k] == RowEvent(s[|s| - 1 - k].id, k == |s| - 1) {
      ReverseAt(Flagged(s), k);
    }
    IdsAt(Flagged(s));
    IdsAt(s);
  }

  /**
   * One statement: its events are printed in exact reverse order, only the last one printed says
   * it is the end, and each event is deleted once.
   */
  method HandleStatement(p: Printer, s: seq<RowEvent>)
    requires Statement(s)
    modifies p
    ensures p.held == []
    ensures old(p.printed) <= p.printed && Reversed(p.printed[old(|p.printed|)..], s)
    ensures p.deleted == old(p.deleted) + Ids(s)
  {
    hide Ids, Reverse;
    ghost var printed0, deleted0, all := p.printed, p.deleted, Flagged(s);
    p.TableMap();
    var n := 0;
    while n < |s|
      invariant 0 <= n <= |s|
      invariant n < |s| ==> p.held == all[..n] && p.printed == printed0 && p.deleted == deleted0
      invariant n == |s| ==> p.held == []
      invariant n == |s| ==> p.printed == printed0 + Reverse(all)
      invariant n == |s| ==> p.deleted == deleted0 + Ids(all)
    {
      assert all[..n + 1] == all[..n] + [RowEvent(s[n].id, n == 0)];
      assert n + 1 == |s| ==> all[..n + 1] == all;
      p.Row(s[n]);
      n := n + 1;
    }
    FlaggedIsReversed(s);
  }

  /** The ids of all events of a log. */
  function AllIds(stmts: seq<seq<RowEvent>>): seq<nat> {
    if stmts == [] then [] else AllIds(stmts[..|stmts| - 1]) + Ids(stmts[|stmts| - 1])
  }

  /** A log printed statement by statement, each of them reversed. */
  ghost predicate ReversedAll(out: seq<RowEvent>, stmts: seq<seq<RowEvent>>)
    decreases |stmts|
  {
    if stmts == [] then out == []
    else
      var last := stmts[|stmts| - 1];
      && |last| <= |out|
      && Reversed(out[|out| - |last|..], last)
      && ReversedAll(out[..|out| - |last|], stmts[..|stmts| - 1])
  }

  /** Each event is an object of its own. */
  ghost predicate DistinctIds(stmts: seq<seq<RowEvent>>) {
    forall a, k, b, l | 0 <= a < |stmts| && 0 <= k < |stmts[a]| && 0 <= b < |stmts| && 0 <= l < |stmts[b]| ::
      stmts[a][k].id == stmts[b][l].id ==> a == b && k == l
  }

  ghost predicate NoDuplicates(ids: seq<nat>) {
    forall i, j :: 0 <= i < j < |ids| ==> ids[i] != ids[j]
  }

  lemma {:induction false} AllIdsAt(stmts: seq<seq<RowEvent>>, i: nat) returns (a: nat, k: nat)
    requires i < |AllIds(stmts)|
    ensures a < |stmts| && k < |stmts[a]| && AllIds(stmts)[i] == stmts[a][k].id
    decreases |stmts|
  {
    var n := |stmts| - 1;
    IdsAt(stmts[n]);
    var before := |AllIds(stmts[..n])|;
    if i < before {
      a, k := AllIdsAt(stmts[..n], i);
    } else {
      a, k := n, i - before;
    }
  }

  lemma {:induction false} EachOnce(stmts: seq<seq<RowEvent>>)
    requires DistinctIds(stmts)
    ensures NoDuplicates(AllIds(stmts))
    decreases |stmts|
  {
    if stmts != [] {
      var n := |stmts| - 1;
      var most, ids := stmts[..n], AllIds(stmts);
      assert DistinctIds(most);
      EachOnce(most);
      IdsAt(stmts[n]);
      var before := |AllIds(most)|;
      forall i, j | 0 <= i < j < |ids| ensures ids[i] != ids[j] {
        if i < before <= j {
          var a, k := AllIdsAt(most, i);
          assert ids[j] == stmts[n][j - before].id && ids[i] == stmts[a][k].id;
        } else if before <= i {
          assert ids[i] == stmts[n][i - before].id && ids[j] == stmts[n][j - before].id;
        }
      }
    }
  }

  /** A whole log: every event object of every statement is deleted exactly once. */
  method HandleLog(p: Printer, stmts: seq<seq<RowEvent>>)
    requires p.deleted == [] && p.printed == []
    requires forall i :: 0 <= i < |stmts| ==> Statement(stmts[i])
    modifies p
    ensures p.deleted == AllIds(stmts) && ReversedAll(p.printed, stmts)
    ensures DistinctIds(stmts) ==> NoDuplicates(p.deleted)
  {
    assert stmts[..0] == [];
    for i := 0 to |stmts|
      invariant p.deleted == AllIds(stmts[..i]) && ReversedAll(p.printed, stmts[..i])
    {
      hide Ids, Reversed;
      ghost var done := stmts[..i + 1];
      assert done[..|done| - 1] == stmts[..i];
      ghost var before := p.printed;
      HandleStatement(p, stmts[i]);
      ReversedLength(p.printed[|before|..], stmts[i]);
      assert p.printed[..|p.printed| - |stmts[i]|] == before;
    }
    assert stmts[..|stmts|] == stmts;
    if DistinctIds(stmts) {
      EachOnce(stmts);
    }
  }

  lemma ReversedLength(out: seq<RowEvent>, s: seq<RowEvent>)
    requires Reversed(out, s)
    ensures |out| == |s|
  {
  }
}
