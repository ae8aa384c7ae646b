/** The lines of the state machine are what the listener makes of the text in the pipe. */
module MarkerLines {
  import opened Bytes
  import opened Decimal
  import opened Markers
  import opened Listener
  import opened ServerLog

  /** The first line that the reader prints for an event, if that is a marker. */
  ghost predicate Prints(e: Event, line: string) {
    match e.kind
    case Gtid => exists seqNo :: line == PrintBegin(e.start, e.end, seqNo) && e.info == PrintInt(seqNo)
    case Rows(stmtEnd) => stmtEnd && exists round :: line == PrintStmt(e.start, e.end, round)
    case Xid => exists xid, round :: line == PrintCommit(e.start, e.end, xid, round) && e.info == Print(xid)
    case QueryEnd => exists query, round :: IsQueryLine(e, query, round, line)
    case Other => false
  }

  /** A query's text may hold line feeds; its marker's line ends at the first. */
  predicate IsQueryLine(e: Event, query: string, round: nat, line: string) {
    QUERY + TwoFields(Print(e.start), Print(e.end), "") <= line <= PrintQuery(e.start, e.end, query, round)
  }

  /** A line with its file's name spelled out. */
  function Spelled(ln: Line<nat>, name: nat -> string): Line<string> {
    match ln
    case Start(n) => Start(name(n))
    case First(n) => First(name(n))
    case Begin(pos, end, seqNo) => Begin(pos, end, seqNo)
    case Stmt(pos, end) => Stmt(pos, end)
    case Commit(pos, end, xid) => Commit(pos, end, xid)
    case Query(pos, end) => Query(pos, end)
    case Column => Column
    case Where => Where
    case Set => Set
    case Insert => Insert
    case Update => Update
    case Delete => Delete
    case OtherRow => OtherRow
    case End => End
    case Last => Last
    case Text => Text
    case Malformed => Malformed
  }

  /** The marker of an event in the state machine is the parse of what the reader prints for it. */
  lemma MarkerIsParsed(e: Event, line: string, name: nat -> string)
    requires Prints(e, line)
    ensures MarkerOf(e) != [] && Classify(line) == Spelled(MarkerOf(e)[0], name)
  {
    hide Classify, Print, PrintInt, TwoFields;
    match e.kind
    case Gtid =>
      var seqNo :| line == PrintBegin(e.start, e.end, seqNo) && e.info == PrintInt(seqNo);
      BeginRoundTrip(e.start, e.end, seqNo);
    case Rows(_) =>
      var round :| line == PrintStmt(e.start, e.end, round);
      StmtRoundTrip(e.start, e.end, round);
    case Xid =>
      var xid, round :| line == PrintCommit(e.start, e.end, xid, round) && e.info == Print(xid);
      CommitRoundTrip(e.start, e.end, xid, round);
    case QueryEnd =>
      var query, round :| IsQueryLine(e, query, round, line);
      QueryRoundTrip(e.start, e.end, query, round, line);
  }

  /** So are the lines around files and rounds. */
  lemma NamesAreParsed(n: nat, name: nat -> string, round: nat, date: string)
    requires SeparatorFree(name(n))
    ensures Classify(PrintStart(name(n), round)) == Spelled(Start(n), name)
    ensures Classify(PrintEnd(name(n), round)) == Spelled(End, name)
    ensures Classify(PrintFirst(name(n), round, date)) == Spelled(First(n), name)
    ensures Classify(PrintLast(name(n), round, date)) == Spelled(Last, name)
  {
    hide Classify;
    StartRoundTrip(name(n), round);
    EndRoundTrip(name(n), round);
    FirstRoundTrip(name(n), round, date);
    LastRoundTrip(name(n), round, date);
  }

  // ----- the listener does not care what names look like

  ghost predicate Injective(name: nat -> string) {
    forall m, n :: name(m) == name(n) ==> m == n
  }

  function SpelledName(n: Option<nat>, name: nat -> string): Option<string> {
    match n
    case None => None
    case Some(m) => Some(name(m))
  }

  function SpelledPlace(c: Option<Checkpoint<nat>>, name: nat -> string): Option<Checkpoint<string>> {
    match c
    case None => None
    case Some(p) => Some(Checkpoint(name(p.name), p.pos, p.index))
  }

  function SpelledState(s: State<nat>, name: nat -> string): State<string> {
    var sh, lo := s.sh, s.lo;
    State(
      Shared(SpelledPlace(sh.seqn, name), SpelledPlace(sh.inProgress, name), SpelledPlace(sh.xai, name),
             SpelledName(sh.first, name), SpelledName(sh.last, name), sh.endEvent),
      Local(name(lo.name), lo.stmt, lo.query, lo.data, lo.op, lo.phase, lo.pos, lo.index, lo.files))
  }

  lemma EndRowIsSpelled(s: State<nat>, ln: Line<nat>, name: nat -> string)
    ensures EndRow(SpelledState(s, name), Spelled(ln, name)) == SpelledState(EndRow(s, ln), name)
  {
  }

  lemma OpenRowIsSpelled(s: State<nat>, op: char, phase: char, name: nat -> string)
    ensures OpenRow(SpelledState(s, name), op, phase) == SpelledState(OpenRow(s, op, phase), name)
  {
  }

  lemma RowLineIsSpelled(s: State<nat>, ln: Line<nat>, name: nat -> string)
    ensures RowLine(SpelledState(s, name), Spelled(ln, name)) == SpelledState(RowLine(s, ln), name)
  {
    hide OpenRow;
    OpenRowIsSpelled(s, 'P', 'T', name);
    OpenRowIsSpelled(s, 'U', 'X', name);
    OpenRowIsSpelled(s, 'D', 'L', name);
  }

  lemma MarkerLineIsSpelled(s: State<nat>, ln: Line<nat>, name: nat -> string)
    requires Injective(name)
    ensures MarkerLine(SpelledState(s, name), Spelled(ln, name)) == SpelledState(MarkerLine(s, ln), name)
  {
    match ln
    case Start(n) => SameName(s.sh.first, n, name);
    case Last => SameName(s.sh.last, s.lo.name, name);
    case _ =>
  }

  lemma SameName(o: Option<nat>, n: nat, name: nat -> string)
    requires Injective(name)
    ensures SpelledName(o, name) == Some(name(n)) <==> o == Some(n)
  {
  }

  lemma SameKind(ln: Line<nat>, name: nat -> string)
    ensures Spelled(ln, name).IsRow() == ln.IsRow()
  {
  }

  /** Acting on a line over numbered files is acting on it over their names. */
  lemma ListenIsSpelled(s: State<nat>, ln: Line<nat>, name: nat -> string)
    requires Injective(name)
    ensures Listen(SpelledState(s, name), Spelled(ln, name)) == SpelledState(Listen(s, ln), name)
  {
    hide EndRow, RowLine, MarkerLine, Spelled, SpelledName, SpelledPlace;
    var s1 := EndRow(s, ln);
    EndRowIsSpelled(s, ln, name);
    SameKind(ln, name);
    RowLineIsSpelled(s1, ln, name);
    MarkerLineIsSpelled(s1, ln, name);
  }
}
