/** CSV as the shell prints it and as its import reads it (section 2 of RFC 4180). */
module Csv {
  import opened Bytes
  import opened Doubling

  const EOF: int := -1

  /** The shell's table: blanks and controls, quotes of both kinds, and everything from DEL up. */
  predicate NeedsQuote(c: byte) {
    c <= SPACE || c == DQUOTE || c == QUOTE || c >= 127
  }

  // ----- printing; separators and cells are C strings

  /**
   * Byte `i` of the cell is taken for the column separator. A longer separator is compared with the
   * start of the cell, not with the text at `i`.
   */
  predicate Hits(sep: seq<byte>, z: seq<byte>, i: nat)
    requires i < |z|
  {
    sep != [] && z[i] == sep[0] && (|sep| == 1 || sep <= z)
  }

  predicate Bare(sep: seq<byte>, z: seq<byte>) {
    z != [] && forall i :: 0 <= i < |z| ==> !NeedsQuote(z[i]) && !Hits(sep, z, i)
  }

  function Cell(sep: seq<byte>, z: seq<byte>): seq<byte> {
    if Bare(sep, z) then z else [DQUOTE] + Doubled(DQUOTE, z) + [DQUOTE]
  }

  /** Cells with the separator between them, and the end of the row. */
  function Row(sep: seq<byte>, rowSep: seq<byte>, cells: seq<seq<byte>>): seq<byte> {
    if cells == [] then rowSep
    else Cell(sep, cells[0]) + (if |cells| > 1 then sep else []) + Row(sep, rowSep, cells[1..])
  }

  /** Rows of at least one cell, none of which holds a terminator. */
  predicate Printable(rows: seq<seq<seq<byte>>>) {
    forall i :: 0 <= i < |rows| ==> rows[i] != [] && forall j :: 0 <= j < |rows[i]| ==> NulFree(rows[i][j])
  }

  function Table(sep: seq<byte>, rowSep: seq<byte>, rows: seq<seq<seq<byte>>>): seq<byte>
    requires Printable(rows)
  {
    if rows == [] then [] else Row(sep, rowSep, rows[0]) + Table(sep, rowSep, rows[1..])
  }

  /** `output_csv` for a cell that is not null. */
  method OutputCell(sep: seq<byte>, z: seq<byte>, withSep: bool) returns (out: seq<byte>)
    requires NulFree(sep) && NulFree(z)
    ensures out == Cell(sep, z) + if withSep then sep else []
  {
    var i := 0;
    while i < |z|
      invariant 0 <= i <= |z|
      invariant forall k :: 0 <= k < i ==> !NeedsQuote(z[k]) && !Hits(sep, z, k)
    {
      if NeedsQuote(z[i]) || Hits(sep, z, i) {
        i := 0;
        break;
      }
      i := i + 1;
    }
    if i == 0 {
      out := [DQUOTE];
      assert z[..0] == [];
      for k := 0 to |z|
        invariant out == [DQUOTE] + Doubled(DQUOTE, z[..k])
      {
        assert z[..k + 1] == z[..k] + [z[k]];
        DoubledSnoc(DQUOTE, z[..k], z[k]);
        if z[k] == DQUOTE {
          out := out + [DQUOTE];
        }
        out := out + [z[k]];
      }
      assert z[..|z|] == z;
      out := out + [DQUOTE];
    } else {
      out := z;
    }
    if withSep {
      out := out + sep;
    }
  }

  /** A row of a query's result. */
  method OutputRow(sep: seq<byte>, rowSep: seq<byte>, cells: seq<seq<byte>>) returns (out: seq<byte>)
    requires NulFree(sep) && cells != [] && forall j :: 0 <= j < |cells| ==> NulFree(cells[j])
    ensures out == Row(sep, rowSep, cells)
  {
    hide Cell;
    out := [];
    assert cells[0..] == cells;
    for i := 0 to |cells|
      invariant out + Row(sep, rowSep, cells[i..]) == Row(sep, rowSep, cells)
    {
      assert cells[i..][1..] == cells[i + 1..];
      var cell := OutputCell(sep, cells[i], i < |cells| - 1);
      assert Row(sep, rowSep, cells[i..]) == cell + Row(sep, rowSep, cells[i + 1..]);
      out := out + cell;
    }
    out := out + rowSep;
  }

  // ----- reading

  /**
   * A separator as the reader keeps it: a char of the setting copied to an int. A char is signed, so
   * a byte from 128 up becomes negative, and 255 becomes the end of the file.
   */
  function AsChar(b: byte): int {
    if b < 128 then b else b - 256
  }

  datatype Field = Field(text: seq<byte>, term: int, rest: seq<byte>)

  /** The text before its last quote. */
  function BeforeLastQuote(z: seq<byte>): seq<byte>
    requires DQUOTE in z
  {
    if z[|z| - 1] == DQUOTE then z[..|z| - 1] else BeforeLastQuote(z[..|z| - 1])
  }

  /** The last two bytes kept, as the reader remembers them, allow the closing quote to be found. */
  predicate Remembers(z: seq<byte>, pc: int, ppc: int) {
    && (pc == DQUOTE ==> z != [] && z[|z| - 1] == DQUOTE)
    && (pc == CR && ppc == DQUOTE ==> |z| >= 2 && z[|z| - 2] == DQUOTE)
  }

  predicate Closes(c: int, sep: int, row: int, pc: int, ppc: int) {
    || ((c == sep || c == row || c == EOF) && pc == DQUOTE)
    || (c == row && pc == CR && ppc == DQUOTE)
  }

  /** A quoted field, from after its opening quote. */
  function Quoted(s: seq<byte>, sep: int, row: int, z: seq<byte>, pc: int, ppc: int): Field
    requires Remembers(z, pc, ppc)
    decreases |s|
  {
    var c := if s == [] then EOF else s[0];
    if c == DQUOTE && pc == DQUOTE then Quoted(s[1..], sep, row, z, 0, ppc)
    else if Closes(c, sep, row, pc, ppc) then
      Field(BeforeLastQuote(z), c, if s == [] then [] else s[1..])
    else if s == [] then Field(z, EOF, [])
    else Quoted(s[1..], sep, row, z + [s[0]], s[0], pc)
  }

  function Plain(s: seq<byte>, sep: int, row: int, z: seq<byte>): Field
    decreases |s|
  {
    var c := if s == [] then EOF else s[0];
    if c == EOF || c == sep || c == row then
      Field(if c == row && z != [] && z[|z| - 1] == CR then z[..|z| - 1] else z, c, if s == [] then [] else s[1..])
    else Plain(s[1..], sep, row, z + [s[0]])
  }

  /** One field; None at the end of the file. */
  function ReadOne(s: seq<byte>, sep: int, row: int): Option<Field> {
    if s == [] then None
    else if s[0] == DQUOTE then Some(Quoted(s[1..], sep, row, [], 0, 0))
    else Some(Plain(s, sep, row, []))
  }

  lemma FieldShortens(s: seq<byte>, sep: int, row: int)
    ensures s != [] ==> |ReadOne(s, sep, row).value.rest| < |s|
  {
    if s != [] {
      QuotedShortens(s[1..], sep, row, [], 0, 0);
      PlainShortens(s, sep, row, []);
    }
  }

  lemma {:induction false} QuotedShortens(s: seq<byte>, sep: int, row: int, z: seq<byte>, pc: int, ppc: int)
    requires Remembers(z, pc, ppc)
    ensures |Quoted(s, sep, row, z, pc, ppc).rest| <= |s|
    decreases |s|
  {
    if s != [] {
      if s[0] == DQUOTE && pc == DQUOTE {
        QuotedShortens(s[1..], sep, row, z, 0, ppc);
      } else if !Closes(s[0], sep, row, pc, ppc) {
        QuotedShortens(s[1..], sep, row, z + [s[0]], s[0], pc);
      }
    }
  }

  lemma {:induction false} PlainShortens(s: seq<byte>, sep: int, row: int, z: seq<byte>)
    ensures s != [] ==> |Plain(s, sep, row, z).rest| < |s|
    decreases |s|
  {
    if s != [] && s[0] != row && s[0] != sep {
      PlainShortens(s[1..], sep, row, z + [s[0]]);
    }
  }

  /** The import context: the input, the accumulated text and the space for it. */
  class ImportCtx {
    const input: seq<byte>
    const colSep: int
    const rowSep: int
    var at: nat
    var z: seq<byte>  // the first n bytes of the text buffer
    var nAlloc: nat
    var term: int

    ghost predicate Valid()
      reads this
    {
      at <= |input| && |z| < nAlloc
    }

    constructor (input: seq<byte>, colSep: int, rowSep: int)
      ensures Valid() && at == 0
      ensures this.input == input && this.colSep == colSep && this.rowSep == rowSep
    {
      this.input, this.colSep, this.rowSep := input, colSep, rowSep;
      at, z, nAlloc, term := 0, [], 100, 0;
    }

    /** There is always room for one more byte and the terminator. */
    method AppendChar(c: byte)
      requires Valid()
      modifies this`z, this`nAlloc
      ensures Valid() && z == old(z) + [c]
    {
      if |z| + 1 >= nAlloc {
        nAlloc := nAlloc + nAlloc + 100;
      }
      z := z + [c];
    }

    method GetChar() returns (c: int)
      requires Valid()
      modifies this`at
      ensures Valid()
      ensures if old(at) < |input| then c == input[old(at)] && at == old(at) + 1 else c == EOF && at == old(at)
    {
      if at < |input| {
        c := input[at];
        at := at + 1;
      } else {
        c := EOF;
      }
    }

    /** `csv_read_one_field`: false at the end of the file. */
    method ReadField() returns (some: bool)
      requires Valid()
      modifies this
      ensures Valid()
      ensures some == ReadOne(old(input[at..]), colSep, rowSep).Some?
      ensures some ==>
        Field(z, term, input[at..]) == ReadOne(old(input[at..]), colSep, rowSep).value
      ensures !some ==> term == EOF && at == |input|
    {
      z := [];
      var c := GetChar();
      if c == EOF {
        term := EOF;
        return false;
      }
      if c == DQUOTE {
        ReadQuoted();
      } else {
        assert input[at - 1..] == [c] + input[at..];
        ReadPlain(c);
      }
      some := true;
    }

    method ReadQuoted()
      requires Valid() && z == []
      modifies this
      ensures Valid()
      ensures Field(z, term, input[at..]) == Quoted(old(input[at..]), colSep, rowSep, [], 0, 0)
    {
      ghost var want := Quoted(input[at..], colSep, rowSep, [], 0, 0);
      var pc, ppc := 0, 0;
      while true
        invariant Valid() && Remembers(z, pc, ppc)
        invariant Quoted(input[at..], colSep, rowSep, z, pc, ppc) == want
        decreases |input| - at
      {
        ghost var s := input[at..];
        var c := GetChar();
        assert s != [] ==> s[1..] == input[at..];
        if c == DQUOTE && pc == DQUOTE {
          pc := 0;
          continue;
        }
        if Closes(c, colSep, rowSep, pc, ppc) {
          TrimToQuote();
          term := c;
          break;
        }
        if c == EOF {
          term := c;
          break;
        }
        AppendChar(c);
        ppc := pc;
        pc := c;
      }
    }

    method TrimToQuote()
      requires Valid() && DQUOTE in z
      modifies this`z
      ensures Valid() && z == BeforeLastQuote(old(z))
    {
      ghost var want := BeforeLastQuote(z);
      var found := false;
      while !found
        invariant |z| <= |old(z)|
        invariant if found then z == want else DQUOTE in z && BeforeLastQuote(z) == want
        decreases |z|, !found
      {
        found := z[|z| - 1] == DQUOTE;
        z := z[..|z| - 1];
      }
    }

    method ReadPlain(first: byte)
      requires Valid() && z == []
      modifies this
      ensures Valid()
      ensures Field(z, term, input[at..]) == Plain([first] + old(input[at..]), colSep, rowSep, [])
    {
      ghost var want := Plain([first] + input[at..], colSep, rowSep, []);
      var c: int := first;
      ghost var s := [first] + input[at..];
      while c != EOF && c != colSep && c != rowSep
        invariant Valid() && -1 <= c < 256
        invariant s == if c == EOF then [] else [c] + input[at..]
        invariant c == EOF ==> at == |input|
        invariant Plain(s, colSep, rowSep, z) == want
        decreases |s|
      {
        assert s[1..] == input[at..];
        AppendChar(c);
        s := s[1..];
        c := GetChar();
      }
      if c == rowSep && |z| > 0 && z[|z| - 1] == CR {
        z := z[..|z| - 1];
      }
      assert s != [] ==> s[1..] == input[at..];
      term := c;
    }
  }
}
