/** A printed row with one long column fits the listener's buffer. */
module LongColumn {
  import opened Bytes
  import opened Markers
  import opened Listener
  import opened Splitting
  import opened LineCutter
  import opened RowReading

  const INSERT_TAG := "### INSERT INTO "
  const SET_LINE := "### SET"
  const FIRST_COLUMN := "###   @1="

  /** An inserted row of one column, as the reader prints it. */
  function PrintRow(table: string, value: string): string {
    INSERT_TAG + table + "\n" + SET_LINE + "\n" + FIRST_COLUMN + value
  }

  /** What of it has been read: part of the first line, of the second, or of the third. */
  lemma RowPrefix(table: string, value: string, n: nat)
    requires OnOneLine(table) && OnOneLine(value) && n <= |PrintRow(table, value)|
    ensures var s := PrintRow(table, value)[..n];
      var one, col := INSERT_TAG + table, FIRST_COLUMN + value;
      || (Lines(s) == [] && |Tail(s)| <= |one|)
      || (Lines(s) == [one] && |Tail(s)| <= |SET_LINE|)
      || (Lines(s) == [one, SET_LINE] && Tail(s) <= col)
  {
    hide Lines, Tail;
    var all, one, col := PrintRow(table, value), INSERT_TAG + table, FIRST_COLUMN + value;
    var s := all[..n];
    var first := one + "\n";
    var second := first + SET_LINE + "\n";
    assert all == second + col;
    if n <= |one| {
      assert s == one[..n] && Join([]) + s == s;
      SplitIsUnique(s, [], s);
    } else if n <= |first| + |SET_LINE| {
      var t := SET_LINE[..n - |first|];
      assert second[..n] == first + t;
      assert [one][..0] == [] && Join([one]) == "" + one + "\n" == first;
      assert s == Join([one]) + t;
      SplitIsUnique(s, [one], t);
    } else {
      var t := col[..n - |second|];
      assert s == second + t;
      assert [one, SET_LINE][..1] == [one] && [one][..0] == [];
      assert Join([one]) == "" + one + "\n" == first;
      assert Join([one, SET_LINE]) == first + SET_LINE + "\n";
      SplitIsUnique(s, [one, SET_LINE], t);
    }
  }

  /** Both lines before the column are read as what they are. */
  lemma RowLinesAreRead(table: string)
    ensures Classes([INSERT_TAG + table, SET_LINE]) == [Insert, Set]
  {
    InsertSelects(" INTO " + table);
    assert INSERT_TAG + table == "### INSERT" + (" INTO " + table);
    SetSelects("");
    assert SET_LINE + "" == SET_LINE;
  }

  lemma LongEnoughIsColumn(value: string, t: string)
    requires t <= FIRST_COLUMN + value && |t| >= |FIRST_COLUMN|
    ensures IsColumn(t)
  {
    assert t[|COLUMN|..][1] == '=';
  }

  /**
   * Once a file has been started and a statement announced, such a row fits the buffer however its
   * column is cut, as long as the table's name is short and the column overflows the buffer once.
   */
  lemma LongColumnFits(max: nat, len: nat, s0: State<string>, before: seq<Line<string>>, table: string, value: string)
    requires FileStarted(s0.lo.files > 0, before) && StatementOpen(s0.lo.stmt, before)
    requires OnOneLine(table) && OnOneLine(value)
    requires |INSERT_TAG + table| <= max - 2 * len && |FIRST_COLUMN| <= max - 2 * len
    requires |FIRST_COLUMN + value| <= 2 * max - 3 * len
    ensures Fits(max, len, ListenAll(s0, before), PrintRow(table, value) + ['\n'])
  {
    hide Lines, Tail, ListenAll, Classes, FileStarted, StatementOpen, Reads, PrintRow;
    var st, all := ListenAll(s0, before), PrintRow(table, value);
    RowLinesAreRead(table);
    RowIsRead(s0, before, Insert, Set, []);
    DataIsRead(s0, before);
    forall n | 0 <= n <= |all| ensures TailFits(max, len, st, all[..n]) {
      RowPrefix(table, value, n);
      if |Tail(all[..n])| > max - 2 * len {
        LongEnoughIsColumn(value, Tail(all[..n]));
      }
    }
    LineFeedFits(max, len, st, all);
  }

  lemma LineFeedFits(max: nat, len: nat, st: State<string>, s: string)
    requires Fits(max, len, st, s) && max >= 2 * len
    ensures Fits(max, len, st, s + ['\n'])
  {
    hide TailFits;
    LinesStep(s, '\n');
    forall n | 0 <= n <= |s| + 1 ensures TailFits(max, len, st, (s + ['\n'])[..n]) {
      if n <= |s| {
        assert (s + ['\n'])[..n] == s[..n];
      } else {
        assert (s + ['\n'])[..n] == s + ['\n'];
        EmptyTailFits(max, len, st, s + ['\n']);
      }
    }
  }

  lemma EmptyTailFits(max: nat, len: nat, st: State<string>, s: string)
    requires Tail(s) == "" && max >= 2 * len
    ensures TailFits(max, len, st, s)
  {
  }

  lemma DataIsRead(s0: State<string>, before: seq<Line<string>>)
    requires Reads(ListenAll(s0, before + ([Insert, Set] + [])), false)
    ensures ListenAll(ListenAll(s0, before), [Insert, Set]).lo.data
  {
    ListenAllAppend(s0, before, [Insert, Set]);
    var row: seq<Line<string>> := [Insert, Set];
    assert row + [] == row;
  }
}
