/** Fields that the printer does not write, or not there, and what the reader makes of them. */
module CsvFields {
  import opened Bytes
  import opened Csv
  import opened CsvRoundTrip
  import opened Doubling

  // ----- which cells are printed as they are

  /** Visible ASCII other than the two quotes, and nowhere what is taken for the separator. */
  lemma BareExactly(sep: seq<byte>, z: seq<byte>)
    ensures Cell(sep, z) == z <==>
      (&& z != []
       && (forall i :: 0 <= i < |z| ==> 33 <= z[i] <= 126 && z[i] != 34 && z[i] != 39)
       && (|sep| == 1 ==> sep[0] !in z)
       && (|sep| > 1 ==> !(sep <= z)))
  {
    LongerWhenQuoted(z);
    if |sep| > 1 && sep <= z {
      assert Hits(sep, z, 0);
    }
    if |sep| == 1 && sep[0] in z {
      var i :| 0 <= i < |z| && z[i] == sep[0];
      assert Hits(sep, z, i);
    }
    if !Bare(sep, z) && z != [] {
      var i :| 0 <= i < |z| && (NeedsQuote(z[i]) || Hits(sep, z, i));
    }
  }

  lemma {:induction false} LongerWhenQuoted(z: seq<byte>)
    ensures |Doubled(DQUOTE, z)| >= |z|
  {
    if z != [] {
      LongerWhenQuoted(z[1..]);
    }
  }

  // ----- fields that end with the file, and quotes in odd places

  /** A quoted field that is never closed is all of the text behind its opening quote. */
  lemma UnterminatedField(y: seq<byte>, sep: int, row: int)
    ensures ReadOne([DQUOTE] + Doubled(DQUOTE, y), sep, row) == Some(Field(y, EOF, []))
  {
    var s := [DQUOTE] + Doubled(DQUOTE, y);
    assert s[1..] == Doubled(DQUOTE, y) + [] && [] + y == y;
    var pc, ppc := Behind(y, [], sep, row, [], 0, 0);
  }

  /** The reader keeps doubled text, and behind it is as far from closing the field as before. */
  lemma {:induction false} Behind(x: seq<byte>, tail: seq<byte>, sep: int, row: int, z: seq<byte>, pc: int, ppc: int)
    returns (pc': int, ppc': int)
    requires pc != DQUOTE && !(pc == CR && ppc == DQUOTE)
    ensures pc' != DQUOTE && !(pc' == CR && ppc' == DQUOTE)
    ensures Quoted(Doubled(DQUOTE, x) + tail, sep, row, z, pc, ppc) == Quoted(tail, sep, row, z + x, pc', ppc')
    decreases |x|
  {
    hide Quoted;
    if x == [] {
      assert Doubled(DQUOTE, x) + tail == tail && z + x == z;
      pc', ppc' := pc, ppc;
    } else {
      var more := Doubled(DQUOTE, x[1..]) + tail;
      assert z + [x[0]] + x[1..] == z + x;
      if x[0] == DQUOTE {
        assert Doubled(DQUOTE, x) + tail == [DQUOTE] + ([DQUOTE] + more);
        QuotedKeeps(DQUOTE, [DQUOTE] + more, sep, row, z, pc, ppc);
        QuotedSkips(more, sep, row, z + [DQUOTE], pc);
        pc', ppc' := Behind(x[1..], tail, sep, row, z + [DQUOTE], 0, pc);
      } else {
        assert Doubled(DQUOTE, x) + tail == [x[0]] + more;
        QuotedKeeps(x[0], more, sep, row, z, pc, ppc);
        pc', ppc' := Behind(x[1..], tail, sep, row, z + [x[0]], x[0], pc);
      }
    }
  }

  /** A single quote closes nothing unless a separator is right behind it: it is kept, and so is the text. */
  lemma StrayQuote(x: seq<byte>, y: seq<byte>, sep: int, row: int)
    requires y != [] && DQUOTE !in y && y[0] != sep && y[0] != row && row != EOF
    requires y[0] == CR && |y| > 1 ==> y[1] != row
    ensures ReadOne([DQUOTE] + Doubled(DQUOTE, x) + [DQUOTE] + y, sep, row) == Some(Field(x + [DQUOTE] + y, EOF, []))
  {
    var s := [DQUOTE] + Doubled(DQUOTE, x) + [DQUOTE] + y;
    assert s[1..] == Doubled(DQUOTE, x) + ([DQUOTE] + y) && [] + x == x;
    var pc, ppc := Behind(x, [DQUOTE] + y, sep, row, [], 0, 0);
    QuotedKeeps(DQUOTE, y, sep, row, x, pc, ppc);
    WithoutQuote(y, sep, row, x + [DQUOTE], DQUOTE, pc);
  }

  lemma {:induction false} WithoutQuote(y: seq<byte>, sep: int, row: int, z: seq<byte>, pc: int, ppc: int)
    requires DQUOTE !in y && Remembers(z, pc, ppc) && row != EOF
    requires pc == DQUOTE ==> y != [] && y[0] != sep && y[0] != row && (y[0] == CR && |y| > 1 ==> y[1] != row)
    requires pc == CR && ppc == DQUOTE && y != [] ==> y[0] != row
    ensures Quoted(y, sep, row, z, pc, ppc) == Field(z + y, EOF, [])
    decreases |y|
  {
    if y == [] {
      assert z + y == z;
    } else {
      assert z + [y[0]] + y[1..] == z + y;
      WithoutQuote(y[1..], sep, row, z + [y[0]], y[0], pc);
    }
  }

  /** An unquoted field is the text up to the first separator or the end, quotes and all. */
  lemma {:induction false} UnquotedField(x: seq<byte>, tail: seq<byte>, sep: int, row: int)
    requires sep !in x && row !in x && x + tail != [] && (x + tail)[0] != DQUOTE
    requires tail != [] ==> tail[0] == sep || tail[0] == row
    requires row != EOF && sep != row
    ensures var f := ReadOne(x + tail, sep, row);
      f == Some(
        if tail == [] then Field(x, EOF, [])
        else if tail[0] == sep || x == [] || x[|x| - 1] != CR then Field(x, tail[0], tail[1..])
        else Field(x[..|x| - 1], row, tail[1..]))
  {
    assert [] + x == x;
    Collects(x, tail, sep, row, []);
  }

  lemma {:induction false} Collects(x: seq<byte>, tail: seq<byte>, sep: int, row: int, z: seq<byte>)
    requires sep !in x && row !in x
    ensures Plain(x + tail, sep, row, z) == Plain(tail, sep, row, z + x)
    decreases |x|
  {
    if x == [] {
      assert x + tail == tail && z + x == z;
    } else {
      assert (x + tail)[1..] == x[1..] + tail && z + [x[0]] + x[1..] == z + x;
      Collects(x[1..], tail, sep, row, z + [x[0]]);
    }
  }

  // ----- rows that end with the file

  /** A printed cell that the file ends behind is read back too. */
  lemma CellEndsWithFile(z: seq<byte>, sep: seq<byte>, rowSep: seq<byte>)
    requires Works(sep, rowSep) && NulFree(z)
    ensures ReadOne(Cell(sep, z), ColumnSep(sep).value, RowSep(rowSep).value) == Some(Field(z, EOF, []))
  {
    hide Quoted, Plain, Doubled;
    var c, r := ColumnSep(sep).value, RowSep(rowSep).value;
    assert [] + z == z;
    if Bare(sep, z) {
      BareIsPlain(sep, z);
      assert z + [] == z;
      assert NeedsQuote(r);
      UnquotedField(z, [], c, r);
    } else {
      QuotedCell(z, []);
      assert Cell(sep, z) == [DQUOTE] + Doubled(DQUOTE, z) + [DQUOTE] + [];
      var pc, ppc := Behind(z, [DQUOTE] + [], c, r, [], 0, 0);
      QuotedKeeps(DQUOTE, [], c, r, z, pc, ppc);
      ClosedByFile(z, c, r, pc);
    }
  }

  lemma ClosedByFile(z: seq<byte>, sep: int, row: int, ppc: int)
    ensures Quoted([], sep, row, z + [DQUOTE], DQUOTE, ppc) == Field(z, EOF, [])
  {
    assert (z + [DQUOTE])[..|z|] == z;
  }

  /** A printed row whose end is missing is read whole, with or without a separator behind its last cell. */
  lemma {:induction false} RowEndsWithFile(sep: seq<byte>, rowSep: seq<byte>, cells: seq<seq<byte>>, tail: seq<byte>)
    requires Works(sep, rowSep) && cells != [] && forall j :: 0 <= j < |cells| ==> NulFree(cells[j])
    requires tail == [] || tail == sep
    ensures ReadRow(Row(sep, tail, cells), ColumnSep(sep).value, RowSep(rowSep).value)
         == Some((RowRead(cells, EOF), []))
    decreases |cells|
  {
    hide ReadOne, Cell, NeedsQuote;
    var c, r := ColumnSep(sep).value, RowSep(rowSep).value;
    var s := Row(sep, tail, cells);
    if |cells| == 1 {
      assert cells[1..] == [] && cells == [cells[0]];
      assert Row(sep, tail, cells[1..]) == tail;
      assert s == Cell(sep, cells[0]) + [] + tail;
      if tail == [] {
        assert s == Cell(sep, cells[0]);
        CellEndsWithFile(cells[0], sep, rowSep);
      } else {
        assert s == Cell(sep, cells[0]) + (sep + []);
        CellReadsBack(cells[0], sep, [], sep, rowSep, c);
        RowShortens([], c, r);
      }
    } else {
      var more := Row(sep, tail, cells[1..]);
      assert s == Cell(sep, cells[0]) + (sep + more);
      CellReadsBack(cells[0], sep, more, sep, rowSep, c);
      RowEndsWithFile(sep, rowSep, cells[1..], tail);
      assert [cells[0]] + cells[1..] == cells;
    }
  }
}
