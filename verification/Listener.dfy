/** What one line does to the listener thread and to the state it shares with the main thread. */
module Listener {
  import opened Bytes
  import opened Markers

  datatype Checkpoint<+Name> = Checkpoint(name: Name, pos: nat, index: nat)

  /** The global sequences, and the event that ends a round. */
  datatype Shared<+Name> = Shared(
    seqn: Option<Checkpoint<Name>>,        // where the next round starts; None while the name is empty
    inProgress: Option<Checkpoint<Name>>,  // how far the listener has come
    xai: Option<Checkpoint<Name>>,         // the record on disk
    first: Option<Name>,                   // first file of the round
    last: Option<Name>,                    // last file of the round
    endEvent: bool)                        // auto-reset event: end of the round seen

  /** The listener's own variables. */
  datatype Local<+Name> = Local(
    name: Name,
    stmt: bool, query: bool, data: bool,
    op: char, phase: char,  // second and third letter of the journal entry
    pos: nat, index: nat, files: nat)

  datatype State<+Name> = State(sh: Shared<Name>, lo: Local<Name>)

  function PosOf<Name>(c: Option<Checkpoint<Name>>): nat {
    if c.Some? then c.value.pos else 0
  }

  function IndexOf<Name>(c: Option<Checkpoint<Name>>): nat {
    if c.Some? then c.value.index else 0
  }

  /** A line that is not column data ends the row that was being read, and saves the position. */
  function EndRow<Name>(s: State<Name>, ln: Line<Name>): State<Name> {
    if s.lo.data && !ln.Column? then
      State(s.sh.(xai := s.sh.inProgress), s.lo.(query := s.lo.query && s.lo.phase == 'B', data := false))
    else s
  }

  /** INSERT, UPDATE or DELETE opens a row unless it was already read in an earlier round. */
  function OpenRow<Name>(s: State<Name>, op: char, phase: char): State<Name> {
    var index := s.lo.index + 1;
    var isNew := s.lo.files > 0 || s.lo.pos != PosOf(s.sh.seqn) || index > IndexOf(s.sh.seqn);
    s.(lo := s.lo.(op := op, phase := phase, index := index, query := isNew, data := false))
  }

  function RowLine<Name>(s: State<Name>, ln: Line<Name>): State<Name> {
    match ln
    case Where => if s.lo.query
      then s.(lo := s.lo.(data := true, phase := if s.lo.op == 'U' then 'B' else s.lo.phase)) else s
    case Set => if s.lo.query
      then s.(lo := s.lo.(data := true, phase := if s.lo.op == 'U' then 'P' else s.lo.phase)) else s
    case Insert => OpenRow(s, 'P', 'T')
    case Update => OpenRow(s, 'U', 'X')
    case Delete => OpenRow(s, 'D', 'L')
    case _ => s
  }

  /** Commit and query markers move the progress to their end and save it. */
  function Close<Name>(s: State<Name>, pos: nat, end: nat): State<Name> {
    var c := Some(Checkpoint(s.lo.name, end, 0));
    State(s.sh.(inProgress := c, xai := c), s.lo.(pos := pos, index := 0))
  }

  function MarkerLine<Name(==)>(s: State<Name>, ln: Line<Name>): State<Name> {
    match ln
    case Begin(pos, _, _) =>
      State(s.sh.(inProgress := Some(Checkpoint(s.lo.name, pos, 0))), s.lo.(pos := pos, index := 0))
    case Stmt(pos, _) => s.(lo := s.lo.(stmt := true, pos := pos))
    case Commit(pos, end, _) =>
      Close(s.(lo := s.lo.(query := false, stmt := false, data := false)), pos, end)
    case Query(pos, end) => Close(s, pos, end)
    case Start(name) =>
      State(
        if s.sh.first == Some(name) then s.sh
        else s.sh.(inProgress := Some(Checkpoint(name, BIN_LOG_HEADER_SIZE, 0))),
        s.lo.(name := name, files := s.lo.files + 1))
    case First(name) => s.(lo := s.lo.(name := name, files := 0))
    case Last => if s.sh.last == Some(s.lo.name)
      then s.(sh := s.sh.(seqn := s.sh.inProgress, endEvent := true)) else s
    case _ => s
  }

  function Listen<Name(==)>(s: State<Name>, ln: Line<Name>): State<Name> {
    var s1 := EndRow(s, ln);
    if ln.IsRow() then (if s1.lo.stmt then RowLine(s1, ln) else s1)
    else MarkerLine(s1, ln)
  }

  function ListenAll<Name(==)>(s: State<Name>, lines: seq<Line<Name>>): State<Name> {
    if lines == [] then s else Listen(ListenAll(s, lines[..|lines| - 1]), lines[|lines| - 1])
  }

  /** Reading data implies a row is open, which implies a statement was announced. */
  predicate FlagsNest<Name>(lo: Local<Name>) {
    (lo.data ==> lo.query) && (lo.query ==> lo.stmt)
  }

  lemma ListenNests<Name>(s: State<Name>, ln: Line<Name>)
    requires FlagsNest(s.lo)
    ensures FlagsNest(Listen(s, ln).lo)
  {
  }

  /** The nesting holds after every line of every run. */
  lemma {:induction false} FlagsAlwaysNest<Name>(s: State<Name>, lines: seq<Line<Name>>)
    requires FlagsNest(s.lo)
    ensures FlagsNest(ListenAll(s, lines).lo)
  {
    if lines != [] {
      FlagsAlwaysNest(s, lines[..|lines| - 1]);
    }
  }

  lemma {:induction false} ListenAllAppend<Name>(s: State<Name>, a: seq<Line<Name>>, b: seq<Line<Name>>)
    ensures ListenAll(s, a + b) == ListenAll(ListenAll(s, a), b)
  {
    if b == [] {
      assert a + b == a;
    } else {
      ListenAllAppend(s, a, b[..|b| - 1]);
      assert (a + b)[..|a + b| - 1] == a + b[..|b| - 1];
    }
  }
}
