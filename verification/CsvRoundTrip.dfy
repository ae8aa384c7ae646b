/** Reading back what was printed, for exactly the separator settings that allow it. */
module CsvRoundTrip {
  import opened Bytes
  import opened Csv
  import opened Doubling

  const CRLF: seq<byte> := [CR, LF]

  // ----- import

  /** The column separator as the reader gets it; import refuses settings of any other length. */
  function ColumnSep(sep: seq<byte>): Option<int> {
    if |sep| == 1 then Some(AsChar(sep[0])) else None
  }

  /** The same for rows, where the printer's own default is exchanged for the reader's. */
  function RowSep(rowSep: seq<byte>): Option<int> {
    if rowSep == CRLF then Some(LF)
    else if |rowSep| == 1 then Some(AsChar(rowSep[0]))
    else None
  }

  /** A row as read: its cells, and what ended the last of them. */
  datatype RowRead = RowRead(cells: seq<seq<byte>>, term: int)

  /** Fields up to the first that does not end with the column separator, and the input behind them. */
  function ReadRow(s: seq<byte>, sep: int, row: int): Option<(RowRead, seq<byte>)>
    decreases |s|
  {
    FieldShortens(s, sep, row);
    match ReadOne(s, sep, row)
    case None => None
    case Some(f) =>
      if f.term != sep then Some((RowRead([f.text], f.term), f.rest))
      else match ReadRow(f.rest, sep, row)
        case None => Some((RowRead([f.text], EOF), f.rest))
        case Some((more, rest)) => Some((RowRead([f.text] + more.cells, more.term), rest))
  }

  lemma {:induction false} RowShortens(s: seq<byte>, sep: int, row: int)
    ensures if s == [] then ReadRow(s, sep, row) == None
            else ReadRow(s, sep, row).Some? && |ReadRow(s, sep, row).value.1| < |s|
    decreases |s|
  {
    if s != [] {
      FieldShortens(s, sep, row);
      var f := ReadOne(s, sep, row).value;
      if f.term == sep {
        RowShortens(f.rest, sep, row);
      }
    }
  }

  function ReadRows(s: seq<byte>, sep: int, row: int): seq<RowRead>
    decreases |s|
  {
    RowShortens(s, sep, row);
    match ReadRow(s, sep, row)
    case None => []
    case Some((r, rest)) => [r] + ReadRows(rest, sep, row)
  }

  /** A file read under a setting; None if import refuses the setting. */
  function Import(input: seq<byte>, sep: seq<byte>, rowSep: seq<byte>): Option<seq<RowRead>> {
    if ColumnSep(sep) == None || RowSep(rowSep) == None then None
    else Some(ReadRows(input, ColumnSep(sep).value, RowSep(rowSep).value))
  }

  /** The reader as it runs, over a whole file. */
  method ImportAll(input: seq<byte>, sep: seq<byte>, rowSep: seq<byte>) returns (rows: Option<seq<RowRead>>)
    ensures rows == Import(input, sep, rowSep)
  {
    if |sep| != 1 {
      return None;
    }
    var end := rowSep;
    if |end| == 2 && end == CRLF {
      end := [LF];
    }
    if |end| != 1 {
      return None;
    }
    var all := ReadFile(input, AsChar(sep[0]), AsChar(end[0]));
    rows := Some(all);
  }

  method ReadFile(input: seq<byte>, sep: int, row: int) returns (rows: seq<RowRead>)
    ensures rows == ReadRows(input, sep, row)
  {
    hide ReadRow;
    var ctx := new ImportCtx(input, sep, row);
    rows := [];
    assert input[0..] == input;
    while true
      invariant ctx.Valid() && ctx.input == input && ctx.colSep == sep && ctx.rowSep == row && fresh(ctx)
      invariant rows + ReadRows(ctx.input[ctx.at..], sep, row) == ReadRows(input, sep, row)
      decreases |input| - ctx.at
    {
      RowShortens(ctx.input[ctx.at..], sep, row);
      var cells := ReadCells(ctx);
      if cells == [] {
        break;
      }
      rows := rows + [RowRead(cells, ctx.term)];
    }
  }

  /** The fields of one row; none at the end of the file. */
  method ReadCells(ctx: ImportCtx) returns (cells: seq<seq<byte>>)
    requires ctx.Valid()
    modifies ctx
    ensures ctx.Valid()
    ensures var r := ReadRow(old(ctx.input[ctx.at..]), ctx.colSep, ctx.rowSep);
      if cells == [] then r == None else r == Some((RowRead(cells, ctx.term), ctx.input[ctx.at..]))
  {
    ghost var want := ReadRow(ctx.input[ctx.at..], ctx.colSep, ctx.rowSep);
    cells := [];
    while true
      invariant ctx.Valid()
      invariant Continues(want, cells, ReadRow(ctx.input[ctx.at..], ctx.colSep, ctx.rowSep), ctx.input[ctx.at..])
      decreases |ctx.input| - ctx.at
    {
      ghost var s := ctx.input[ctx.at..];
      FieldShortens(s, ctx.colSep, ctx.rowSep);
      if s != [] {
        ContinuesStep(want, cells, s, ctx.colSep, ctx.rowSep);
      }
      var some := ctx.ReadField();
      if !some {
        break;
      }
      cells := cells + [ctx.z];
      if ctx.term != ctx.colSep {
        break;
      }
    }
  }

  /** The row is the cells read so far and what is still to be read of it. */
  ghost predicate Continues(want: Option<(RowRead, seq<byte>)>, cells: seq<seq<byte>>,
                            next: Option<(RowRead, seq<byte>)>, rest: seq<byte>) {
    if cells == [] then want == next
    else want == match next
      case None => Some((RowRead(cells, EOF), rest))
      case Some((more, rest')) => Some((RowRead(cells + more.cells, more.term), rest'))
  }

  lemma ContinuesStep(want: Option<(RowRead, seq<byte>)>, cells: seq<seq<byte>>, s: seq<byte>, sep: int, row: int)
    requires s != [] && Continues(want, cells, ReadRow(s, sep, row), s)
    ensures var f := ReadOne(s, sep, row).value;
      if f.term != sep then want == Some((RowRead(cells + [f.text], f.term), f.rest))
      else Continues(want, cells + [f.text], ReadRow(f.rest, sep, row), f.rest)
  {
    FieldShortens(s, sep, row);
    var f := ReadOne(s, sep, row).value;
    assert [] + [f.text] == [f.text];
    if f.term == sep && ReadRow(f.rest, sep, row).Some? {
      var more := ReadRow(f.rest, sep, row).value.0;
      assert cells + ([f.text] + more.cells) == (cells + [f.text]) + more.cells;
    }
  }

  // ----- settings

  /** Separators that are found again, and never inside a cell. */
  predicate Works(sep: seq<byte>, rowSep: seq<byte>) {
    && NulFree(sep) && NulFree(rowSep)
    && |sep| == 1 && sep[0] < 128 && sep[0] != DQUOTE
    && if rowSep == CRLF then sep[0] != CR && sep[0] != LF
       else
         && |rowSep| == 1 && rowSep[0] < 128 && rowSep[0] != DQUOTE
         && NeedsQuote(rowSep[0]) && rowSep[0] != sep[0]
  }

  /** How a cell ends: with the column separator, or with the end of the row. */
  predicate Ending(end: seq<byte>, term: int, sep: seq<byte>, rowSep: seq<byte>)
    requires Works(sep, rowSep)
  {
    (end == sep && term == ColumnSep(sep).value) || (end == rowSep && term == RowSep(rowSep).value)
  }

  // ----- one cell

  /** In a quoted field, doubled text comes back and the closing quote is the one that closes. */
  lemma {:induction false} QuotedReadsBack(x: seq<byte>, end: seq<byte>, rest: seq<byte>, sep: seq<byte>,
                                           rowSep: seq<byte>, term: int, z: seq<byte>, pc: int, ppc: int)
    requires Works(sep, rowSep) && Ending(end, term, sep, rowSep)
    requires pc != DQUOTE && !(pc == CR && ppc == DQUOTE)
    ensures var c, r := ColumnSep(sep).value, RowSep(rowSep).value;
      Quoted(Doubled(DQUOTE, x) + ([DQUOTE] + (end + rest)), c, r, z, pc, ppc) == Field(z + x, term, rest)
    decreases |x|
  {
    hide Quoted, Ending, NeedsQuote;
    var c, r := ColumnSep(sep).value, RowSep(rowSep).value;
    var tail := [DQUOTE] + (end + rest);
    if x == [] {
      assert Doubled(DQUOTE, x) + tail == tail && z + x == z;
      QuotedKeeps(DQUOTE, end + rest, c, r, z, pc, ppc);
      ClosingReadsBack(end, rest, sep, rowSep, term, z, pc);
    } else {
      var more := Doubled(DQUOTE, x[1..]) + tail;
      assert z + [x[0]] + x[1..] == z + x;
      if x[0] == DQUOTE {
        assert Doubled(DQUOTE, x) + tail == [DQUOTE] + ([DQUOTE] + more);
        QuotedKeeps(DQUOTE, [DQUOTE] + more, c, r, z, pc, ppc);
        QuotedSkips(more, c, r, z + [DQUOTE], pc);
        QuotedReadsBack(x[1..], end, rest, sep, rowSep, term, z + [DQUOTE], 0, pc);
      } else {
        assert Doubled(DQUOTE, x) + tail == [x[0]] + more;
        QuotedKeeps(x[0], more, c, r, z, pc, ppc);
        QuotedReadsBack(x[1..], end, rest, sep, rowSep, term, z + [x[0]], x[0], pc);
      }
    }
  }

  /** Away from a quote, a byte of a quoted field is kept, whatever it is. */
  lemma QuotedKeeps(c: byte, more: seq<byte>, sep: int, row: int, z: seq<byte>, pc: int, ppc: int)
    requires pc != DQUOTE && !(pc == CR && ppc == DQUOTE)
    ensures Quoted([c] + more, sep, row, z, pc, ppc) == Quoted(more, sep, row, z + [c], c, pc)
  {
    assert ([c] + more)[1..] == more;
  }

  /** The second of two quotes is dropped and forgotten. */
  lemma QuotedSkips(more: seq<byte>, sep: int, row: int, z: seq<byte>, ppc: int)
    requires z != [] && z[|z| - 1] == DQUOTE
    ensures Quoted([DQUOTE] + more, sep, row, z, DQUOTE, ppc) == Quoted(more, sep, row, z, 0, ppc)
  {
    assert ([DQUOTE] + more)[1..] == more;
  }

  lemma ClosingReadsBack(end: seq<byte>, rest: seq<byte>, sep: seq<byte>, rowSep: seq<byte>, term: int,
                         z: seq<byte>, ppc: int)
    requires Works(sep, rowSep) && Ending(end, term, sep, rowSep)
    ensures Quoted(end + rest, ColumnSep(sep).value, RowSep(rowSep).value, z + [DQUOTE], DQUOTE, ppc)
         == Field(z, term, rest)
  {
    var c, r := ColumnSep(sep).value, RowSep(rowSep).value;
    var s := end + rest;
    assert (z + [DQUOTE])[..|z|] == z;
    if |end| == 1 {
      assert s[1..] == rest;
    } else {
      var s1, z1 := s[1..], z + [DQUOTE] + [CR];
      assert s[0] == CR && s1 == [LF] + rest && s1[1..] == rest;
      assert z1[..|z1| - 1] == z + [DQUOTE];
      assert BeforeLastQuote(z1) == BeforeLastQuote(z + [DQUOTE]) == z;
      assert Quoted(s1, c, r, z1, CR, DQUOTE) == Field(z, term, rest);
      assert Quoted(s, c, r, z + [DQUOTE], DQUOTE, ppc) == Quoted(s1, c, r, z1, CR, DQUOTE);
    }
  }

  lemma PlainEnds(end: seq<byte>, rest: seq<byte>, sep: seq<byte>, rowSep: seq<byte>, term: int, z: seq<byte>)
    requires Works(sep, rowSep) && Ending(end, term, sep, rowSep)
    requires forall i :: 0 <= i < |z| ==> !NeedsQuote(z[i])
    ensures Plain(end + rest, ColumnSep(sep).value, RowSep(rowSep).value, z) == Field(z, term, rest)
  {
    var s := end + rest;
    if |end| == 1 {
      assert s[1..] == rest;
    } else {
      assert s[0] == CR && s[1..] == [LF] + rest && s[1..][1..] == rest;
      assert (z + [CR])[..|z|] == z;
    }
  }

  lemma PlainKeeps(c: byte, s: seq<byte>, sep: seq<byte>, rowSep: seq<byte>, z: seq<byte>)
    requires Works(sep, rowSep) && s != [] && s[0] == c && !NeedsQuote(c) && c != sep[0]
    ensures Plain(s, ColumnSep(sep).value, RowSep(rowSep).value, z)
         == Plain(s[1..], ColumnSep(sep).value, RowSep(rowSep).value, z + [c])
  {
  }

  /** Text with nothing to quote is read up to its ending. */
  lemma {:induction false} PlainReadsBack(x: seq<byte>, end: seq<byte>, rest: seq<byte>, sep: seq<byte>,
                                          rowSep: seq<byte>, term: int, z: seq<byte>)
    requires Works(sep, rowSep) && Ending(end, term, sep, rowSep)
    requires forall i :: 0 <= i < |x| ==> !NeedsQuote(x[i]) && x[i] != sep[0]
    requires forall i :: 0 <= i < |z| ==> !NeedsQuote(z[i])
    ensures Plain(x + (end + rest), ColumnSep(sep).value, RowSep(rowSep).value, z) == Field(z + x, term, rest)
    decreases |x|
  {
    hide Ending, ColumnSep, RowSep;
    var s := x + (end + rest);
    if x == [] {
      assert s == end + rest && z + x == z;
      PlainEnds(end, rest, sep, rowSep, term, z);
    } else {
      assert s[1..] == x[1..] + (end + rest);
      PlainKeeps(x[0], s, sep, rowSep, z);
      assert z + [x[0]] + x[1..] == z + x;
      PlainReadsBack(x[1..], end, rest, sep, rowSep, term, z + [x[0]]);
    }
  }

  /** One printed cell is one field, unchanged, with its own ending as terminator. */
  lemma CellReadsBack(z: seq<byte>, end: seq<byte>, rest: seq<byte>, sep: seq<byte>, rowSep: seq<byte>, term: int)
    requires NulFree(z) && Works(sep, rowSep) && Ending(end, term, sep, rowSep)
    ensures var c, r := ColumnSep(sep).value, RowSep(rowSep).value;
      ReadOne(Cell(sep, z) + (end + rest), c, r) == Some(Field(z, term, rest))
  {
    hide Quoted, Doubled, Plain, Ending, NeedsQuote, ColumnSep, RowSep;
    if Bare(sep, z) {
      BareIsPlain(sep, z);
      PlainReadsBack(z, end, rest, sep, rowSep, term, []);
      assert [] + z == z;
    } else {
      QuotedCell(z, end + rest);
      QuotedReadsBack(z, end, rest, sep, rowSep, term, [], 0, 0);
      assert [] + z == z;
    }
  }

  lemma BareIsPlain(sep: seq<byte>, z: seq<byte>)
    requires |sep| == 1 && Bare(sep, z)
    ensures z[0] != DQUOTE
    ensures forall i :: 0 <= i < |z| ==> !NeedsQuote(z[i]) && z[i] != sep[0]
  {
    forall i | 0 <= i < |z| ensures !NeedsQuote(z[i]) && z[i] != sep[0] {
      assert !Hits(sep, z, i);
    }
  }

  lemma QuotedCell(z: seq<byte>, tail: seq<byte>)
    ensures [DQUOTE] + Doubled(DQUOTE, z) + [DQUOTE] + tail == [DQUOTE] + (Doubled(DQUOTE, z) + ([DQUOTE] + tail))
    ensures ([DQUOTE] + (Doubled(DQUOTE, z) + ([DQUOTE] + tail)))[1..] == Doubled(DQUOTE, z) + ([DQUOTE] + tail)
  {
    hide Doubled;
  }

  // ----- whole tables

  /** The rows that a table should be read as: all ended by the row separator. */
  function AsRead(rows: seq<seq<seq<byte>>>, row: int): seq<RowRead> {
    seq(|rows|, i requires 0 <= i < |rows| => RowRead(rows[i], row))
  }

  lemma {:induction false} RowReadsBack(sep: seq<byte>, rowSep: seq<byte>, cells: seq<seq<byte>>, rest: seq<byte>)
    requires Works(sep, rowSep) && cells != [] && forall j :: 0 <= j < |cells| ==> NulFree(cells[j])
    ensures ReadRow(Row(sep, rowSep, cells) + rest, ColumnSep(sep).value, RowSep(rowSep).value)
         == Some((RowRead(cells, RowSep(rowSep).value), rest))
    decreases |cells|
  {
    hide ReadOne, Cell, NeedsQuote;
    var c, r := ColumnSep(sep).value, RowSep(rowSep).value;
    var s := Row(sep, rowSep, cells) + rest;
    if |cells| == 1 {
      assert cells[1..] == [] && cells == [cells[0]];
      assert Row(sep, rowSep, cells) == Cell(sep, cells[0]) + [] + rowSep;
      assert s == Cell(sep, cells[0]) + (rowSep + rest);
      CellReadsBack(cells[0], rowSep, rest, sep, rowSep, r);
    } else {
      var more := Row(sep, rowSep, cells[1..]) + rest;
      assert s == Cell(sep, cells[0]) + (sep + more);
      CellReadsBack(cells[0], sep, more, sep, rowSep, c);
      RowReadsBack(sep, rowSep, cells[1..], rest);
      assert [cells[0]] + cells[1..] == cells;
    }
  }

  /**
   * Reading back a printed table returns every cell, with the column separator as terminator for
   * all but the last cell of a row and the row separator for the last.
   */
  lemma {:induction false} TableReadsBack(sep: seq<byte>, rowSep: seq<byte>, rows: seq<seq<seq<byte>>>)
    requires Works(sep, rowSep) && Printable(rows)
    ensures Import(Table(sep, rowSep, rows), sep, rowSep) == Some(AsRead(rows, RowSep(rowSep).value))
    decreases |rows|
  {
    hide ReadRow, Row, NeedsQuote;
    if rows == [] {
      RowShortens([], ColumnSep(sep).value, RowSep(rowSep).value);
    } else {
      RowReadsBack(sep, rowSep, rows[0], Table(sep, rowSep, rows[1..]));
      TableReadsBack(sep, rowSep, rows[1..]);
      assert AsRead(rows, RowSep(rowSep).value)
          == [RowRead(rows[0], RowSep(rowSep).value)] + AsRead(rows[1..], RowSep(rowSep).value);
    }
  }

  // ----- settings that do not work

  ghost predicate ReadsBack(sep: seq<byte>, rowSep: seq<byte>, rows: seq<seq<seq<byte>>>)
    requires Printable(rows)
  {
    && RowSep(rowSep).Some?
    && Import(Table(sep, rowSep, rows), sep, rowSep) == Some(AsRead(rows, RowSep(rowSep).value))
  }

  const ONE: seq<seq<seq<byte>>> := [[[]]]            // one row of one empty cell
  const TWO_CELLS: seq<seq<seq<byte>>> := [[[], []]]  // one row of two
  const TWO_ROWS: seq<seq<seq<byte>>> := [[[]], [[]]]

  /** An empty cell is printed as two quotes, whatever the setting. */
  lemma EmptyCells(sep: seq<byte>, rowSep: seq<byte>)
    ensures Printable(ONE) && Table(sep, rowSep, ONE) == [DQUOTE, DQUOTE] + rowSep
    ensures Printable(TWO_CELLS) && Table(sep, rowSep, TWO_CELLS) == [DQUOTE, DQUOTE] + sep + [DQUOTE, DQUOTE] + rowSep
    ensures Printable(TWO_ROWS) && Table(sep, rowSep, TWO_ROWS) == [DQUOTE, DQUOTE] + rowSep + [DQUOTE, DQUOTE] + rowSep
  {
    assert Cell(sep, []) == [DQUOTE, DQUOTE];
    var none: seq<seq<byte>> := [];
    assert Row(sep, rowSep, none) == rowSep;
    var one: seq<seq<byte>> := [[]];
    var two: seq<seq<byte>> := [[], []];
    assert one[1..] == none && two[1..] == one;
    assert Row(sep, rowSep, one) == [DQUOTE, DQUOTE] + rowSep;
    assert Row(sep, rowSep, two) == [DQUOTE, DQUOTE] + sep + ([DQUOTE, DQUOTE] + rowSep);
    assert ONE[1..] == [] && TWO_CELLS[1..] == [] && TWO_ROWS[1..] == ONE;
  }

  /** What the first field read is decides it, if it is not what was printed first. */
  lemma FirstFieldDiffers(s: seq<byte>, sep: int, row: int, rows: seq<seq<seq<byte>>>)
    requires rows != [] && rows[0] != []
    requires ReadOne(s, sep, row).Some? && ReadOne(s, sep, row).value.text != rows[0][0]
    ensures ReadRows(s, sep, row) != AsRead(rows, row)
  {
    RowShortens(s, sep, row);
    FieldShortens(s, sep, row);
    var f := ReadOne(s, sep, row).value;
    var r := ReadRow(s, sep, row).value;
    assert r.0.cells[0] == f.text;
    assert ReadRows(s, sep, row)[0] == r.0;
    assert AsRead(rows, row)[0] == RowRead(rows[0], row);
  }

  /** The first row read has another cell behind its first. */
  lemma FirstRowDiffers(s: seq<byte>, sep: int, row: int, rows: seq<seq<seq<byte>>>)
    requires rows != [] && |rows[0]| == 1
    requires ReadOne(s, sep, row).Some? && ReadOne(s, sep, row).value.term == sep
    requires ReadOne(s, sep, row).value.rest != []
    ensures ReadRows(s, sep, row) != AsRead(rows, row)
  {
    RowShortens(s, sep, row);
    FieldShortens(s, sep, row);
    FieldShortens(ReadOne(s, sep, row).value.rest, sep, row);
    RowShortens(ReadOne(s, sep, row).value.rest, sep, row);
    HasCells(ReadOne(s, sep, row).value.rest, sep, row);
    assert |ReadRow(s, sep, row).value.0.cells| >= 2;
    assert ReadRows(s, sep, row)[0] == ReadRow(s, sep, row).value.0;
    assert AsRead(rows, row)[0] == RowRead(rows[0], row);
  }

  lemma HasCells(s: seq<byte>, sep: int, row: int)
    requires ReadRow(s, sep, row).Some?
    ensures ReadRow(s, sep, row).value.0.cells != []
  {
  }

  /** Once a quoted field has text that its end cannot take away, it has text when it is read. */
  lemma {:induction false} TextStays(s: seq<byte>, sep: int, row: int, z: seq<byte>, pc: int, ppc: int)
    requires Remembers(z, pc, ppc) && |z| >= 1
    requires pc == DQUOTE ==> |z| >= 2
    requires pc == CR && ppc == DQUOTE ==> |z| >= 3
    ensures Quoted(s, sep, row, z, pc, ppc).text != []
    decreases |s|
  {
    var c := if s == [] then EOF else s[0];
    if c == DQUOTE && pc == DQUOTE {
      TextStays(s[1..], sep, row, z, 0, ppc);
    } else if Closes(c, sep, row, pc, ppc) {
      if z[|z| - 1] != DQUOTE {
        assert z[..|z| - 1][|z| - 2] == DQUOTE;
        assert BeforeLastQuote(z) == BeforeLastQuote(z[..|z| - 1]) == z[..|z| - 1][..|z| - 2];
      }
    } else if s != [] {
      TextStays(s[1..], sep, row, z + [s[0]], s[0], pc);
    }
  }

  /** An empty cell followed by a byte that does not end it is not read as empty. */
  lemma EmptyCellSpoiled(b: byte, more: seq<byte>, sep: int, row: int)
    requires b == DQUOTE || (b != sep && b != row && b != CR)
    ensures var f := ReadOne([DQUOTE, DQUOTE, b] + more, sep, row); f.Some? && f.value.text != []
  {
    var s := [DQUOTE, DQUOTE, b] + more;
    assert s[1..] == [DQUOTE] + ([b] + more);
    QuotedKeeps(DQUOTE, [b] + more, sep, row, [], 0, 0);
    assert [] + [DQUOTE] == [DQUOTE];
    assert ([b] + more)[1..] == more;
    if b == DQUOTE {
      QuotedSkips(more, sep, row, [DQUOTE], 0);
      TextStays(more, sep, row, [DQUOTE], 0, 0);
    } else {
      assert Quoted([b] + more, sep, row, [DQUOTE], DQUOTE, 0) == Quoted(more, sep, row, [DQUOTE] + [b], b, DQUOTE);
      TextStays(more, sep, row, [DQUOTE] + [b], b, DQUOTE);
    }
  }

  /** Before a byte that does end it, it is. */
  lemma EmptyCellEnds(b: byte, more: seq<byte>, sep: int, row: int)
    requires b != DQUOTE && (b == sep || b == row)
    ensures ReadOne([DQUOTE, DQUOTE, b] + more, sep, row) == Some(Field([], b, more))
  {
    var s := [DQUOTE, DQUOTE, b] + more;
    assert s[1..] == [DQUOTE] + ([b] + more);
    QuotedKeeps(DQUOTE, [b] + more, sep, row, [], 0, 0);
    assert ([b] + more)[1..] == more;
    assert BeforeLastQuote([] + [DQUOTE]) == [];
  }

  /** The same before the line end, where the line feed is what the reader looks for. */
  lemma EmptyCellEndsLine(more: seq<byte>, sep: int)
    requires sep != CR && sep != DQUOTE
    ensures ReadOne([DQUOTE, DQUOTE, CR, LF] + more, sep, LF) == Some(Field([], LF, more))
  {
    var s := [DQUOTE, DQUOTE, CR, LF] + more;
    assert s[1..] == [DQUOTE] + ([CR, LF] + more);
    QuotedKeeps(DQUOTE, [CR, LF] + more, sep, LF, [], 0, 0);
    var z1: seq<byte> := [DQUOTE, CR];
    assert [] + [DQUOTE] + [CR] == z1;
    assert ([CR, LF] + more)[1..] == [LF] + more && ([LF] + more)[1..] == more;
    assert z1[..1] == [DQUOTE] && BeforeLastQuote(z1) == BeforeLastQuote([DQUOTE]) == [];
    assert Quoted([LF] + more, sep, LF, z1, CR, DQUOTE) == Field([], LF, more);
    assert Quoted([CR, LF] + more, sep, LF, [DQUOTE], DQUOTE, 0) == Quoted([LF] + more, sep, LF, z1, CR, DQUOTE);
  }

  /** A row separator that the printer leaves bare inside a cell cuts the cell. */
  lemma BareRowSeparatorCuts(sep: seq<byte>, row: byte)
    requires |sep| == 1 && row != sep[0] && !NeedsQuote(row)
    ensures Printable([[[row]]]) && !ReadsBack(sep, [row], [[[row]]])
  {
    var rows: seq<seq<seq<byte>>> := [[[row]]];
    assert !Hits(sep, [row], 0);
    assert Cell(sep, [row]) == [row];
    assert rows[1..] == [] && rows[0][1..] == [];
    var nothing: seq<seq<byte>> := [];
    assert Row(sep, [row], nothing) == [row];
    assert Row(sep, [row], rows[0]) == [row] + [] + [row];
    var s := Table(sep, [row], rows);
    assert s == Row(sep, [row], rows[0]) + Table(sep, [row], rows[1..]);
    assert s == [row, row];
    assert ReadOne(s, AsChar(sep[0]), row) == Some(Field([], row, s[1..]));
    FirstFieldDiffers(s, AsChar(sep[0]), row, rows);
  }

  /** A setting that does not work, and a table it does not read back. */
  lemma SomeTableIsLost(sep: seq<byte>, rowSep: seq<byte>) returns (rows: seq<seq<seq<byte>>>)
    requires NulFree(sep) && NulFree(rowSep) && !Works(sep, rowSep)
    ensures Printable(rows) && !ReadsBack(sep, rowSep, rows)
  {
    hide ReadOne, ReadRows, NeedsQuote, AsRead, Table;
    EmptyCells(sep, rowSep);
    rows := ONE;
    if |sep| == 1 && (rowSep == CRLF || |rowSep| == 1) {
      var c, r := ColumnSep(sep).value, RowSep(rowSep).value;
      if sep[0] == DQUOTE || sep[0] >= 128 {
        rows := TWO_CELLS;
        var more := [DQUOTE, DQUOTE] + rowSep;
        assert Table(sep, rowSep, rows) == [DQUOTE, DQUOTE, sep[0]] + more;
        EmptyCellSpoiled(sep[0], more, c, r);
        FirstFieldDiffers(Table(sep, rowSep, rows), c, r, rows);
      } else if rowSep == CRLF {
        if sep[0] == CR {
          assert Table(sep, rowSep, rows) == [DQUOTE, DQUOTE, CR] + [LF];
          EmptyCellEnds(CR, [LF], c, r);
          FirstRowDiffers(Table(sep, rowSep, rows), c, r, rows);
        } else {
          rows := TWO_ROWS;
          var more := [DQUOTE, DQUOTE] + CRLF;
          assert Table(sep, rowSep, rows) == [DQUOTE, DQUOTE, CR, LF] + more;
          EmptyCellEndsLine(more, c);
          FirstRowDiffers(Table(sep, rowSep, rows), c, r, rows);
        }
      } else if rowSep[0] == DQUOTE || rowSep[0] >= 128 {
        assert Table(sep, rowSep, rows) == [DQUOTE, DQUOTE, rowSep[0]] + [];
        EmptyCellSpoiled(rowSep[0], [], c, r);
        FirstFieldDiffers(Table(sep, rowSep, rows), c, r, rows);
      } else if rowSep[0] == sep[0] {
        rows := TWO_ROWS;
        var more := [DQUOTE, DQUOTE] + rowSep;
        assert Table(sep, rowSep, rows) == [DQUOTE, DQUOTE, sep[0]] + more;
        EmptyCellEnds(sep[0], more, c, r);
        FirstRowDiffers(Table(sep, rowSep, rows), c, r, rows);
      } else {
        rows := [[[rowSep[0]]]];
        assert rowSep == [rowSep[0]];
        BareRowSeparatorCuts(sep, rowSep[0]);
      }
    }
  }

  /** Which settings round-trip: exactly these, over all separator strings and all tables. */
  lemma SettingsThatWork(sep: seq<byte>, rowSep: seq<byte>)
    requires NulFree(sep) && NulFree(rowSep)
    ensures Works(sep, rowSep) <==> forall rows | Printable(rows) :: ReadsBack(sep, rowSep, rows)
  {
    if Works(sep, rowSep) {
      forall rows | Printable(rows) ensures ReadsBack(sep, rowSep, rows) {
        TableReadsBack(sep, rowSep, rows);
      }
    } else {
      var rows := SomeTableIsLost(sep, rowSep);
    }
  }
}
