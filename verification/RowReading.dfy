/** When the listener reads a row's data: what opens a row, what ends it, and when it is skipped. */
module RowReading {
  import opened Bytes
  import opened Markers
  import opened Listener

  predicate OpensRow<Name>(ln: Line<Name>) {
    ln.Insert? || ln.Update? || ln.Delete?
  }

  predicate StartsData<Name>(ln: Line<Name>) {
    ln.Where? || ln.Set?
  }

  predicate AllColumns<Name>(lines: seq<Line<Name>>) {
    forall i :: 0 <= i < |lines| ==> lines[i].Column?
  }

  // ----- what the lines before say about the state

  /** A statement has been announced since the last commit. */
  ghost predicate StatementOpen<Name>(open: bool, lines: seq<Line<Name>>) {
    || (open && NoCommitFrom(lines, 0))
    || exists i :: 0 <= i < |lines| && lines[i].Stmt? && NoCommitFrom(lines, i)
  }

  /** A file has been started since the round was announced. */
  ghost predicate FileStarted<Name>(started: bool, lines: seq<Line<Name>>) {
    || (started && NoFirstFrom(lines, 0))
    || exists i :: 0 <= i < |lines| && lines[i].Start? && NoFirstFrom(lines, i)
  }

  predicate NoCommitFrom<Name>(lines: seq<Line<Name>>, i: nat) {
    forall j :: i <= j < |lines| ==> !lines[j].Commit?
  }

  predicate NoFirstFrom<Name>(lines: seq<Line<Name>>, i: nat) {
    forall j :: i <= j < |lines| ==> !lines[j].First?
  }

  lemma {:induction false} StatementIsOpen<Name>(s: State<Name>, lines: seq<Line<Name>>)
    ensures ListenAll(s, lines).lo.stmt <==> StatementOpen(s.lo.stmt, lines)
  {
    if lines != [] {
      var n := |lines| - 1;
      StatementIsOpen(s, lines[..n]);
      OneMore(s.lo.stmt, lines);
    }
  }

  lemma OneMore<Name>(open: bool, lines: seq<Line<Name>>)
    requires lines != []
    ensures var most, ln := lines[..|lines| - 1], lines[|lines| - 1];
      StatementOpen(open, lines) <==> ln.Stmt? || (StatementOpen(open, most) && !ln.Commit?)
  {
    var n := |lines| - 1;
    var most := lines[..n];
    if lines[n].Stmt? {
      assert NoCommitFrom(lines, n);
    }
    forall i: nat | i <= n ensures NoCommitFrom(lines, i) <==> NoCommitFrom(most, i) && !lines[n].Commit? {
      assert forall j :: i <= j < n ==> most[j] == lines[j];
    }
  }

  lemma {:induction false} FileIsStarted<Name>(s: State<Name>, lines: seq<Line<Name>>)
    ensures ListenAll(s, lines).lo.files > 0 <==> FileStarted(s.lo.files > 0, lines)
  {
    if lines != [] {
      var n := |lines| - 1;
      FileIsStarted(s, lines[..n]);
      OneMoreFile(s.lo.files > 0, lines);
    }
  }

  lemma OneMoreFile<Name>(started: bool, lines: seq<Line<Name>>)
    requires lines != []
    ensures var most, ln := lines[..|lines| - 1], lines[|lines| - 1];
      FileStarted(started, lines) <==> ln.Start? || (FileStarted(started, most) && !ln.First?)
  {
    var n := |lines| - 1;
    var most := lines[..n];
    if lines[n].Start? {
      assert NoFirstFrom(lines, n);
    }
    forall i: nat | i <= n ensures NoFirstFrom(lines, i) <==> NoFirstFrom(most, i) && !lines[n].First? {
      assert forall j :: i <= j < n ==> most[j] == lines[j];
    }
  }

  // ----- reading a row

  /** A row is being read, of an update's old values or of something else. */
  predicate Reads<Name>(t: State<Name>, oldValues: bool) {
    t.lo.data && t.lo.query && t.lo.stmt && (t.lo.phase == 'B' <==> oldValues) && (oldValues ==> t.lo.op == 'U')
  }

  lemma RowOpens<Name>(s: State<Name>, op: Line<Name>, mark: Line<Name>)
    requires s.lo.stmt && s.lo.files > 0 && OpensRow(op) && StartsData(mark)
    ensures var t := Listen(Listen(s, op), mark);
      Reads(t, op.Update? && mark.Where?) && t.sh.inProgress == s.sh.inProgress && t.lo.files == s.lo.files
  {
  }

  lemma {:induction false} ColumnsChangeNothing<Name>(s: State<Name>, cols: seq<Line<Name>>)
    requires AllColumns(cols)
    ensures ListenAll(s, cols) == s
  {
    if cols != [] {
      ColumnsChangeNothing(s, cols[..|cols| - 1]);
      OneColumn(s, cols[|cols| - 1]);
    }
  }

  lemma OneColumn<Name>(s: State<Name>, ln: Line<Name>)
    requires ln.Column?
    ensures Listen(s, ln) == s
  {
  }

  lemma TwoThen<Name>(s: State<Name>, a: Line<Name>, b: Line<Name>, rest: seq<Line<Name>>)
    ensures ListenAll(s, [a, b] + rest) == ListenAll(Listen(Listen(s, a), b), rest)
  {
    ListenAllAppend(s, [a, b], rest);
    assert [a, b][..1] == [a] && [a][..0] == [];
    assert ListenAll(s, []) == s;
    assert ListenAll(s, [a]) == Listen(s, a);
    assert ListenAll(s, [a, b]) == Listen(Listen(s, a), b);
  }

  /**
   * Once a file has been started and a statement announced, an INSERT, UPDATE or DELETE line and then
   * WHERE or SET make the listener read data, and it does through any number of column lines.
   */
  lemma RowIsRead<Name>(s: State<Name>, before: seq<Line<Name>>, op: Line<Name>, mark: Line<Name>,
                        cols: seq<Line<Name>>)
    requires FileStarted(s.lo.files > 0, before) && StatementOpen(s.lo.stmt, before)
    requires OpensRow(op) && StartsData(mark) && AllColumns(cols)
    ensures var t := ListenAll(s, before + ([op, mark] + cols));
      && Reads(t, op.Update? && mark.Where?)
      && t.sh.inProgress == ListenAll(s, before).sh.inProgress
  {
    hide Listen, FileStarted, StatementOpen, Reads;
    var s1 := ListenAll(s, before);
    FileIsStarted(s, before);
    StatementIsOpen(s, before);
    ListenAllAppend(s, before, [op, mark] + cols);
    TwoThen(s1, op, mark, cols);
    RowOpens(s1, op, mark);
    ColumnsChangeNothing(Listen(Listen(s1, op), mark), cols);
  }

  /**
   * The next line that is not column data ends the row: the progress is saved, before whatever the
   * line itself saves, and the row stays open only behind an update's old values, where SET goes on
   * with the new ones.
   */
  lemma RowEnds<Name>(t: State<Name>, oldValues: bool, ln: Line<Name>)
    requires Reads(t, oldValues) && !ln.Column?
    ensures var u := Listen(t, ln);
      && u.sh.xai == (if ln.Commit? || ln.Query? then Some(Checkpoint(t.lo.name, ln.end, 0)) else t.sh.inProgress)
      && (u.lo.data <==> StartsData(ln) && oldValues)
      && (!OpensRow(ln) && !ln.Commit? ==> (u.lo.query <==> oldValues))
  {
  }

  /** An update's new values are read after its old ones. */
  lemma UpdateGoesOn<Name>(t: State<Name>, cols: seq<Line<Name>>)
    requires Reads(t, true) && AllColumns(cols)
    ensures Reads(ListenAll(t, [Set] + cols), false)
  {
    hide Listen, Reads;
    ListenAllAppend(t, [Set], cols);
    var one: seq<Line<Name>> := [Set];
    assert one[..0] == [] && ListenAll(t, one[..0]) == t;
    assert ListenAll(t, one) == Listen(t, Set);
    SetAfterWhere(t);
    ColumnsChangeNothing(Listen(t, Set), cols);
  }

  lemma SetAfterWhere<Name>(t: State<Name>)
    requires Reads(t, true)
    ensures Reads(Listen(t, Set), false)
  {
  }

  // ----- rows that were read in an earlier round

  /** The lines that give a position; all but STMT start counting rows again. */
  predicate Positions<Name>(ln: Line<Name>) {
    ln.Begin? || ln.Stmt? || ln.Commit? || ln.Query?
  }

  predicate Restarts<Name>(ln: Line<Name>) {
    ln.Begin? || ln.Commit? || ln.Query?
  }

  predicate NoRestart<Name>(lines: seq<Line<Name>>) {
    forall i :: 0 <= i < |lines| ==> !Restarts(lines[i])
  }

  predicate NoRow<Name>(lines: seq<Line<Name>>) {
    forall i :: 0 <= i < |lines| ==> !OpensRow(lines[i])
  }

  /** How many rows the lines open. */
  function Rows<Name>(lines: seq<Line<Name>>): nat {
    if lines == [] then 0 else Rows(lines[..|lines| - 1]) + if OpensRow(lines[|lines| - 1]) then 1 else 0
  }

  /** While a statement is announced, every row is counted. */
  lemma {:induction false} RowsAreCounted<Name>(s: State<Name>, lines: seq<Line<Name>>)
    requires s.lo.stmt && NoRestart(lines)
    ensures var t := ListenAll(s, lines); t.lo.stmt && t.lo.index == s.lo.index + Rows(lines)
  {
    if lines != [] {
      RowsAreCounted(s, lines[..|lines| - 1]);
    }
  }

  lemma {:induction false} NothingIsCounted<Name>(s: State<Name>, lines: seq<Line<Name>>)
    requires NoRow(lines) && NoRestart(lines)
    ensures ListenAll(s, lines).lo.index == s.lo.index
  {
    if lines != [] {
      NothingIsCounted(s, lines[..|lines| - 1]);
    }
  }

  /** The position is the start of the last event that was announced. */
  lemma {:induction false} LastPosition<Name>(s: State<Name>, lines: seq<Line<Name>>, i: nat)
    requires i < |lines| && Positions(lines[i])
    requires forall j :: i < j < |lines| ==> !Positions(lines[j])
    ensures ListenAll(s, lines).lo.pos == lines[i].pos
    decreases |lines|
  {
    if i < |lines| - 1 {
      LastPosition(s, lines[..|lines| - 1], i);
    }
  }

  lemma RestartCounts<Name>(s: State<Name>, m: Line<Name>)
    requires Restarts(m)
    ensures Listen(s, m).lo.index == 0
  {
  }

  lemma RowOpensExactly<Name>(s: State<Name>, op: Line<Name>)
    requires s.lo.stmt && OpensRow(op)
    ensures Listen(s, op).lo.query
      <==> s.lo.files > 0 || s.lo.pos != PosOf(s.sh.seqn) || s.lo.index + 1 > IndexOf(s.sh.seqn)
  {
  }

  /**
   * A row is opened, not skipped, exactly when a file has been started since the round was announced,
   * or the statement is not at the position the round started at, or the row is not among those
   * counted there. Its number is the count of rows since the last BEGIN, COMMIT or QUERY.
   */
  lemma RowIsSkippedExactly<Name>(s: State<Name>, before: seq<Line<Name>>, m: Line<Name>, quiet: seq<Line<Name>>,
                                  rows: seq<Line<Name>>, op: Line<Name>)
    requires Restarts(m) && NoRestart(quiet) && NoRow(quiet) && NoRestart(rows) && OpensRow(op)
    requires StatementOpen(s.lo.stmt, before + [m] + quiet)
    ensures var lines := before + [m] + quiet + rows;
      var t := ListenAll(s, lines);
      ListenAll(s, lines + [op]).lo.query <==>
      FileStarted(s.lo.files > 0, lines) || t.lo.pos != PosOf(t.sh.seqn) || Rows(rows) + 1 > IndexOf(t.sh.seqn)
  {
    hide Listen, FileStarted, StatementOpen, NoRestart, NoRow, Rows;
    var head := before + [m];
    var lines := head + quiet + rows;
    var s1, s2, t := ListenAll(s, head), ListenAll(s, head + quiet), ListenAll(s, lines);
    Snoc(s, before, m);
    RestartCounts(ListenAll(s, before), m);
    ListenAllAppend(s, head, quiet);
    NothingIsCounted(s1, quiet);
    StatementIsOpen(s, head + quiet);
    ListenAllAppend(s, head + quiet, rows);
    RowsAreCounted(s2, rows);
    FileIsStarted(s, lines);
    Snoc(s, lines, op);
    RowOpensExactly(t, op);
  }

  lemma Snoc<Name>(s: State<Name>, lines: seq<Line<Name>>, ln: Line<Name>)
    ensures ListenAll(s, lines + [ln]) == Listen(ListenAll(s, lines), ln)
  {
    assert (lines + [ln])[..|lines|] == lines;
  }
}
