/** The marker lines that the binlog reader prints and the capture listener parses. */
module Markers {
  import opened Bytes
  import opened Decimal

  /**
   * A line as the listener sees it. Lines that start with ### describe rows; the others with a
   * name of their own are markers.
   */
  datatype Line<+Name> =
    | Column | Where | Set | Insert | Update | Delete | OtherRow
    | Begin(pos: nat, end: nat, seqNo: string)
    | Stmt(pos: nat, end: nat)
    | Commit(pos: nat, end: nat, xid: string)
    | Query(pos: nat, end: nat)
    | Start(name: Name)
    | End
    | First(name: Name)
    | Last
    | Text
    | Malformed  // a marker with a field missing, a column without its value: the source reads past the line
  {
    predicate IsRow() {
      Column? || Where? || Set? || Insert? || Update? || Delete? || OtherRow?
    }

    predicate IsMarker() {
      !IsRow() && !Text?
    }
  }

  const COLUMN := "###   @"
  const BEGIN := "*!BEGIN!"
  const STMT := "*!STMT!"
  const COMMIT := "*!COMMIT!"
  const QUERY := "*!QUERY!"
  const START := "*!START_BINLOG!"
  const END := "*!END_BINLOG!"
  const FIRST := "*!FIRST_BINLOG!"
  const LAST := "*!LAST_BINLOG!"

  // ----- printing, without the line feed

  function PrintInt(n: int): string {
    if n < 0 then "-" + Print(-n) else Print(n)
  }

  /** Two fields and whatever follows them. */
  function TwoFields(f: string, g: string, rest: string): string {
    f + "!" + (g + "!" + rest)
  }

  function PrintBegin(pos: nat, end: nat, seqNo: int): string {
    BEGIN + TwoFields(Print(pos), Print(end), PrintInt(seqNo) + "!" + "*")
  }

  function PrintStmt(pos: nat, end: nat, round: nat): string {
    STMT + TwoFields(Print(pos), Print(end), Print(round) + "!*")
  }

  function PrintCommit(pos: nat, end: nat, xid: nat, round: nat): string {
    COMMIT + TwoFields(Print(pos), Print(end), Print(xid) + "!" + (Print(round) + "!*"))
  }

  /** The query text may hold anything; the line ends at its first line feed. */
  function PrintQuery(pos: nat, end: nat, query: string, round: nat): string {
    QUERY + TwoFields(Print(pos), Print(end), query + "!" + Print(round) + "!")
  }

  function PrintStart(name: string, round: nat): string {
    START + name + "!" + Print(round) + "!*"
  }

  function PrintFirst(name: string, round: nat, date: string): string {
    FIRST + name + "!" + Print(round) + "!" + date + "!*"
  }

  function PrintLast(name: string, round: nat, date: string): string {
    LAST + name + "!" + Print(round) + "!" + date + "!*"
  }

  function PrintEnd(name: string, round: nat): string {
    END + name + "!" + Print(round) + "!*"
  }

  // ----- parsing

  /** `strchr` for the separator: the field before it and what follows it. */
  function Cut(s: string): Option<(string, string)> {
    if s == "" then None
    else if s[0] == '!' then Some(("", s[1..]))
    else match Cut(s[1..])
      case None => None
      case Some((f, rest)) => Some(([s[0]] + f, rest))
  }

  /** A position field: `ddatol` into an unsigned long. */
  function Position(f: string): nat {
    Atol(f) % 0x1_0000_0000
  }

  function TwoPositions(s: string): Option<(nat, nat, string)> {
    match Cut(s)
    case None => None
    case Some((f, rest)) =>
      match Cut(rest)
      case None => None
      case Some((g, rest')) => Some((Position(f), Position(g), rest'))
  }

  /** The chain of prefix tests: row lines first, then the markers in the source's order. */
  function Classify(s: string): Line<string> {
    if "###" <= s then ClassifyRow(s) else ClassifyMarker(s)
  }

  /** Column data: the tag, and a value behind an equals sign. */
  predicate IsColumn(s: string) {
    COLUMN <= s && '=' in s[|COLUMN|..]
  }

  function ClassifyRow(s: string): Line<string> {
    if COLUMN <= s then (if IsColumn(s) then Column else Malformed)
    else if "### WHERE" <= s then Where
    else if "### SET" <= s then Set
    else if "### INSERT" <= s then Insert
    else if "### UPDATE" <= s then Update
    else if "### DELETE" <= s then Delete
    else OtherRow
  }

  function ClassifyMarker(s: string): Line<string> {
    if BEGIN <= s then ParseBegin(s[|BEGIN|..])
    else if STMT <= s then ParseStmt(s[|STMT|..])
    else if COMMIT <= s then ParseCommit(s[|COMMIT|..])
    else if QUERY <= s then ParseQuery(s[|QUERY|..])
    else if START <= s then
      if Cut(s[|START|..]).Some? then Start(Cut(s[|START|..]).value.0) else Malformed
    else if END <= s then End
    else if FIRST <= s then
      if Cut(s[|FIRST|..]).Some? then First(Cut(s[|FIRST|..]).value.0) else Malformed
    else if LAST <= s then Last
    else Text
  }

  function ParseBegin(s: string): Line<string> {
    match TwoPositions(s)
    case None => Malformed
    case Some((p, e, rest)) => Begin(p, e, if Cut(rest).Some? then Cut(rest).value.0 else "0")
  }

  function ParseStmt(s: string): Line<string> {
    match TwoPositions(s)
    case None => Malformed
    case Some((p, e, _)) => Stmt(p, e)
  }

  function ParseCommit(s: string): Line<string> {
    match TwoPositions(s)
    case None => Malformed
    case Some((p, e, rest)) => if Cut(rest).Some? then Commit(p, e, Cut(rest).value.0) else Malformed
  }

  function ParseQuery(s: string): Line<string> {
    match TwoPositions(s)
    case None => Malformed
    case Some((p, e, _)) => Query(p, e)
  }

  // ----- round trips

  predicate SeparatorFree(s: string) {
    '!' !in s
  }

  lemma {:induction false} CutField(f: string, rest: string)
    requires SeparatorFree(f)
    ensures Cut(f + "!" + rest) == Some((f, rest))
  {
    var s := f + "!" + rest;
    if f == "" {
      assert s[1..] == rest;
    } else {
      assert s[1..] == f[1..] + "!" + rest;
      CutField(f[1..], rest);
      assert f == [f[0]] + f[1..];
    }
  }

  lemma NumbersAreSeparatorFree(n: nat)
    ensures SeparatorFree(Print(n))
  {
    PrintIsDigits(n);
  }

  function Fit(n: nat): nat {
    if n <= LONG_MAX then n else LONG_MAX
  }

  lemma TwoFieldsCut(f: string, g: string, rest: string)
    requires SeparatorFree(f) && SeparatorFree(g)
    ensures TwoPositions(TwoFields(f, g, rest)) == Some((Position(f), Position(g), rest))
  {
    CutField(f, g + "!" + rest);
    CutField(g, rest);
  }

  /** A printed position comes back; it is exact if and only if it fits in a long. */
  lemma PositionPrinted(p: nat)
    ensures SeparatorFree(Print(p)) && Position(Print(p)) == Fit(p)
    ensures Fit(p) == p <==> p < 0x8000_0000
  {
    NumbersAreSeparatorFree(p);
    AtolPrint(p);
    hide Print, Atol, SeparatorFree;
  }

  lemma TwoPositionsPrinted(p: nat, e: nat, rest: string)
    ensures TwoPositions(TwoFields(Print(p), Print(e), rest)) == Some((Fit(p), Fit(e), rest))
  {
    PositionPrinted(p);
    PositionPrinted(e);
    TwoFieldsCut(Print(p), Print(e), rest);
  }

  /** Each tag selects its own branch, whatever follows it. */
  lemma BeginSelects(t: string)
    ensures Classify(BEGIN + t) == ParseBegin(t)
  {
    assert (BEGIN + t)[0] == '*' && (BEGIN + t)[|BEGIN|..] == t;
  }

  lemma StmtSelects(t: string)
    ensures Classify(STMT + t) == ParseStmt(t)
  {
    assert (STMT + t)[0] == '*' && (STMT + t)[2] == 'S' && (STMT + t)[|STMT|..] == t;
  }

  lemma CommitSelects(t: string)
    ensures Classify(COMMIT + t) == ParseCommit(t)
  {
    assert (COMMIT + t)[0] == '*' && (COMMIT + t)[2] == 'C' && (COMMIT + t)[|COMMIT|..] == t;
  }

  lemma QuerySelects(t: string)
    ensures Classify(QUERY + t) == ParseQuery(t)
  {
    assert (QUERY + t)[0] == '*' && (QUERY + t)[2] == 'Q' && (QUERY + t)[|QUERY|..] == t;
  }

  lemma BeginRoundTrip(p: nat, e: nat, seqNo: int)
    ensures Classify(PrintBegin(p, e, seqNo)) == Begin(Fit(p), Fit(e), PrintInt(seqNo))
    ensures Classify(PrintBegin(p, e, seqNo)) == Begin(p, e, PrintInt(seqNo)) <==> p <= LONG_MAX && e <= LONG_MAX
  {
    hide Classify, Print, TwoPositions;
    var rest := PrintInt(seqNo) + "!" + "*";
    var t := TwoFields(Print(p), Print(e), rest);
    BeginSelects(t);
    TwoPositionsPrinted(p, e, rest);
    NumbersAreSeparatorFree(if seqNo < 0 then -seqNo else seqNo);
    CutField(PrintInt(seqNo), "*");
  }

  lemma StmtRoundTrip(p: nat, e: nat, round: nat)
    ensures Classify(PrintStmt(p, e, round)) == Stmt(Fit(p), Fit(e))
    ensures Classify(PrintStmt(p, e, round)) == Stmt(p, e) <==> p <= LONG_MAX && e <= LONG_MAX
  {
    hide Classify, Print, PrintInt, TwoPositions;
    var rest := Print(round) + "!*";
    var t := TwoFields(Print(p), Print(e), rest);
    StmtSelects(t);
    TwoPositionsPrinted(p, e, rest);
  }

  lemma CommitRoundTrip(p: nat, e: nat, xid: nat, round: nat)
    ensures Classify(PrintCommit(p, e, xid, round)) == Commit(Fit(p), Fit(e), Print(xid))
    ensures Classify(PrintCommit(p, e, xid, round)) == Commit(p, e, Print(xid)) <==> p <= LONG_MAX && e <= LONG_MAX
  {
    hide Classify, Print, PrintInt, TwoPositions;
    var tail := Print(round) + "!*";
    var rest := Print(xid) + "!" + tail;
    var t := TwoFields(Print(p), Print(e), rest);
    CommitSelects(t);
    TwoPositionsPrinted(p, e, rest);
    CutXid(xid, tail);
  }

  lemma CutXid(xid: nat, tail: string)
    ensures Cut(Print(xid) + "!" + tail) == Some((Print(xid), tail))
  {
    NumbersAreSeparatorFree(xid);
    CutField(Print(xid), tail);
  }

  /** Whatever the query text is, and wherever a line feed cuts the line inside it. */
  lemma QueryRoundTrip(p: nat, e: nat, query: string, round: nat, line: string)
    requires QUERY + TwoFields(Print(p), Print(e), "") <= line <= PrintQuery(p, e, query, round)
    ensures Classify(line) == Query(Fit(p), Fit(e))
    ensures Classify(line) == Query(p, e) <==> p <= LONG_MAX && e <= LONG_MAX
  {
    hide Classify, Print, PrintInt, TwoPositions;
    var rest := AfterTwoFields(Print(p), Print(e), line);
    QuerySelects(TwoFields(Print(p), Print(e), rest));
    TwoPositionsPrinted(p, e, rest);
  }

  lemma AfterTwoFields(f: string, g: string, line: string) returns (rest: string)
    requires QUERY + TwoFields(f, g, "") <= line
    ensures line == QUERY + TwoFields(f, g, rest)
  {
    rest := line[|QUERY + TwoFields(f, g, "")|..];
  }

  lemma StartRoundTrip(name: string, round: nat)
    requires SeparatorFree(name)
    ensures Classify(PrintStart(name, round)) == Start(name)
  {
    var s := PrintStart(name, round);
    var rest := Print(round) + "!*";
    assert s[|START|..] == name + "!" + rest;
    CutField(name, rest);
    assert s[0] == '*' && s[2] == 'S' && s[4] == 'A';
  }

  lemma FirstRoundTrip(name: string, round: nat, date: string)
    requires SeparatorFree(name)
    ensures Classify(PrintFirst(name, round, date)) == First(name)
  {
    var s := PrintFirst(name, round, date);
    var rest := Print(round) + "!" + date + "!*";
    assert s[|FIRST|..] == name + "!" + rest;
    CutField(name, rest);
    assert s[0] == '*' && s[2] == 'F';
  }

  lemma LastRoundTrip(name: string, round: nat, date: string)
    ensures Classify(PrintLast(name, round, date)) == Last
  {
    var s := PrintLast(name, round, date);
    assert LAST <= s && s[0] == '*' && s[2] == 'L';
  }

  lemma EndRoundTrip(name: string, round: nat)
    ensures Classify(PrintEnd(name, round)) == End
  {
    var s := PrintEnd(name, round);
    assert END <= s && s[0] == '*' && s[2] == 'E';
  }

  /** What starts neither like a row's line nor like a marker is text. */
  lemma OtherTextIsText(s: string)
    requires !("###" <= s) && !("*!" <= s)
    ensures Classify(s) == Text
  {
  }

  // ----- row lines: each tag selects its own kind, whatever follows it

  lemma InsertSelects(t: string)
    ensures Classify("### INSERT" + t) == Insert
  {
    assert ("### INSERT" + t)[4] == 'I';
  }

  lemma UpdateSelects(t: string)
    ensures Classify("### UPDATE" + t) == Update
  {
    assert ("### UPDATE" + t)[4] == 'U';
  }

  lemma DeleteSelects(t: string)
    ensures Classify("### DELETE" + t) == Delete
  {
    assert ("### DELETE" + t)[4] == 'D';
  }

  lemma WhereSelects(t: string)
    ensures Classify("### WHERE" + t) == Where
  {
    assert ("### WHERE" + t)[4] == 'W';
  }

  lemma SetSelects(t: string)
    ensures Classify("### SET" + t) == Set
  {
    assert ("### SET" + t)[4] == 'S';
  }

  /** A column's number and value. */
  lemma ColumnSelects(number: string, value: string)
    ensures Classify("###   @" + number + "=" + value) == Column
  {
    var s := "###   @" + number + "=" + value;
    assert COLUMN <= s && s[|COLUMN|..][|number|] == '=';
  }

  // ----- lines with a field missing

  /** How many separators a text has. */
  function Separators(s: string): nat {
    if s == "" then 0 else (if s[0] == '!' then 1 else 0) + Separators(s[1..])
  }

  lemma {:induction false} CutCounts(s: string)
    ensures Cut(s).Some? <==> Separators(s) >= 1
    ensures Cut(s).Some? ==> Separators(Cut(s).value.1) == Separators(s) - 1
  {
    if s != "" && s[0] != '!' {
      CutCounts(s[1..]);
    }
  }

  /** Behind a tag, a marker needs its fields' separators: two, for COMMIT three; a file's name, one. */
  lemma MalformedExactly(t: string)
    ensures Classify(BEGIN + t) == Malformed <==> Separators(t) < 2
    ensures Classify(STMT + t) == Malformed <==> Separators(t) < 2
    ensures Classify(COMMIT + t) == Malformed <==> Separators(t) < 3
    ensures Classify(QUERY + t) == Malformed <==> Separators(t) < 2
  {
    BeginSelects(t);
    StmtSelects(t);
    CommitSelects(t);
    QuerySelects(t);
    hide Classify, Position;
    CutCounts(t);
    if Cut(t).Some? {
      var rest := Cut(t).value.1;
      CutCounts(rest);
      if Cut(rest).Some? {
        CutCounts(Cut(rest).value.1);
      }
    }
  }

  /** A BEGIN line of a server without sequence numbers. */
  lemma BeginWithoutNumber(p: nat, e: nat)
    ensures Classify(BEGIN + TwoFields(Print(p), Print(e), "*")) == Begin(Fit(p), Fit(e), "0")
  {
    hide Classify, Print, TwoPositions;
    BeginSelects(TwoFields(Print(p), Print(e), "*"));
    TwoPositionsPrinted(p, e, "*");
    CutCounts("*");
  }
}
