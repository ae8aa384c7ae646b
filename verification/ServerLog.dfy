/** The server's binary logs, and what it takes for their events to be captured. */
module ServerLog {
  import opened Bytes
  import opened Markers
  import opened Listener

  datatype Kind = Gtid | Rows(stmtEnd: bool) | Xid | QueryEnd | Other

  /** An event: its bytes in the file, and the lines the reader prints for it after its marker. */
  datatype Event = Event(kind: Kind, start: nat, end: nat, info: string, text: seq<Line<nat>>)

  /** A line on its way to the capture files; event lines remember which event they print. */
  datatype Item = Item(line: Line<nat>, file: nat, event: nat) | Note(line: Line<nat>)

  /** The marker the reader prints for an event, with the offsets that the listener makes of it. */
  function MarkerOf(e: Event): seq<Line<nat>> {
    match e.kind
    case Gtid => [Begin(Fit(e.start), Fit(e.end), e.info)]
    case Rows(stmtEnd) => if stmtEnd then [Stmt(Fit(e.start), Fit(e.end))] else []
    case Xid => [Commit(Fit(e.start), Fit(e.end), e.info)]
    case QueryEnd => [Query(Fit(e.start), Fit(e.end))]
    case Other => []
  }

  predicate Closing(e: Event) {
    e.kind.Xid? || e.kind.QueryEnd?
  }

  function Tagged(lines: seq<Line<nat>>, file: nat, k: nat): (r: seq<Item>)
    ensures |r| == |lines|
  {
    seq(|lines|, i requires 0 <= i < |lines| => Item(lines[i], file, k))
  }

  /** All lines of an event: its marker, if it has one, and its text. */
  function Printed(e: Event, file: nat, k: nat): (r: seq<Item>)
    ensures Closing(e) ==> r != []
  {
    Tagged(MarkerOf(e) + e.text, file, k)
  }

  // ----- logs

  function Offset(log: seq<Event>, k: nat): nat
    requires k <= |log|
  {
    if k == 0 then BIN_LOG_HEADER_SIZE else log[k - 1].end
  }

  /** Whether a transaction is open before event `k`. */
  function InGroup(log: seq<Event>, k: nat): bool
    requires k <= |log|
  {
    if k == 0 then false
    else match log[k - 1].kind
      case Gtid => true
      case Xid => false
      case QueryEnd => false
      case _ => InGroup(log, k - 1)
  }

  /** Events follow each other, and a query only closes a group. */
  ghost predicate EventOk(log: seq<Event>, k: nat)
    requires k < |log|
  {
    var e := log[k];
    && e.start == Offset(log, k) && e.start < e.end
    && (e.kind.Gtid? ==> !InGroup(log, k))
    && (e.kind.Rows? || Closing(e) ==> InGroup(log, k))
    && (forall i :: 0 <= i < |e.text| ==> !e.text[i].IsMarker())
  }

  ghost predicate LogOk(log: seq<Event>) {
    forall k :: 0 <= k < |log| ==> EventOk(log, k)
  }

  ghost predicate LogsOk(logs: seq<seq<Event>>) {
    && (forall i :: 0 <= i < |logs| ==> LogOk(logs[i]))
    && (forall i :: 0 <= i < |logs| - 1 ==> !InGroup(logs[i], |logs[i]|))
  }

  /** `b` is `a` some time later: events are appended to the last file, files are added. */
  ghost predicate Grows(a: seq<seq<Event>>, b: seq<seq<Event>>) {
    && |a| <= |b|
    && (forall i :: 0 <= i < |a| ==> a[i] <= b[i])
    && (forall i :: 0 <= i < |a| - 1 ==> a[i] == b[i])
  }

  // ----- coverage

  ghost predicate At(w: seq<Item>, b: seq<Item>, r: nat) {
    r + |b| <= |w| && w[r..r + |b|] == b
  }

  /** The lines `b` are in `w`, together. */
  ghost predicate Block(w: seq<Item>, b: seq<Item>) {
    exists r: nat :: At(w, b, r)
  }

  /** An end of an event, by file and offset. */
  datatype Place = Place(file: nat, pos: nat)

  function PlaceOf(c: Checkpoint<nat>): Place {
    Place(c.name, c.pos)
  }

  /**
   * The event is in `w` with all its lines. A closing event that ends in `cut` may be there with its
   * marker only: the listener acts on the marker before the event's text has followed it.
   */
  ghost predicate EventIn(w: seq<Item>, cut: set<Place>, e: Event, file: nat, k: nat) {
    || Block(w, Printed(e, file, k))
    || (Closing(e) && Place(file, e.end) in cut && Block(w, Printed(e, file, k)[..1]))
  }

  /** Position order: by file, then by offset. */
  predicate Before(file: nat, offset: nat, c: Checkpoint<nat>) {
    file < c.name || (file == c.name && offset < c.pos)
  }

  /** Every event from the origin up to event `k` of file `i` is in `w`. */
  ghost predicate CoveredUpTo(logs: seq<seq<Event>>, origin: Checkpoint<nat>, w: seq<Item>, cut: set<Place>,
                              i: nat, k: nat) {
    forall j, m | 0 <= j < |logs| && 0 <= m < |logs[j]| && (j < i || (j == i && m < k)) ::
      !Before(j, logs[j][m].start, origin) ==> EventIn(w, cut, logs[j][m], j, m)
  }

  ghost predicate GoodAt(logs: seq<seq<Event>>, origin: Checkpoint<nat>, w: seq<Item>, cut: set<Place>,
                         c: Checkpoint<nat>, k: nat) {
    && c.name < |logs| && k <= |logs[c.name]|
    && Offset(logs[c.name], k) == c.pos && !InGroup(logs[c.name], k)
    && CoveredUpTo(logs, origin, w, cut, c.name, k)
  }

  /** A position outside any transaction, with everything before it in `w`. */
  ghost predicate Good(logs: seq<seq<Event>>, origin: Checkpoint<nat>, w: seq<Item>, cut: set<Place>,
                       c: Checkpoint<nat>) {
    exists k: nat :: GoodAt(logs, origin, w, cut, c, k)
  }

  lemma BlockGrows(w: seq<Item>, w': seq<Item>, b: seq<Item>)
    requires w <= w' && Block(w, b)
    ensures Block(w', b)
  {
    var r: nat :| At(w, b, r);
    assert w'[r..r + |b|] == w[r..r + |b|];
    assert At(w', b, r);
  }

  lemma EventGrows(w: seq<Item>, cut: set<Place>, w': seq<Item>, cut': set<Place>, e: Event, file: nat, k: nat)
    requires w <= w' && cut <= cut' && EventIn(w, cut, e, file, k)
    ensures EventIn(w', cut', e, file, k)
  {
    if Block(w, Printed(e, file, k)) {
      BlockGrows(w, w', Printed(e, file, k));
    } else {
      BlockGrows(w, w', Printed(e, file, k)[..1]);
    }
  }

  lemma CoverageGrows(logs: seq<seq<Event>>, origin: Checkpoint<nat>, w: seq<Item>, cut: set<Place>,
                      w': seq<Item>, cut': set<Place>, i: nat, k: nat)
    requires w <= w' && cut <= cut' && CoveredUpTo(logs, origin, w, cut, i, k)
    ensures CoveredUpTo(logs, origin, w', cut', i, k)
  {
    forall j, m | 0 <= j < |logs| && 0 <= m < |logs[j]| && (j < i || (j == i && m < k))
                  && !Before(j, logs[j][m].start, origin)
      ensures EventIn(w', cut', logs[j][m], j, m)
    {
      EventGrows(w, cut, w', cut', logs[j][m], j, m);
    }
  }

  lemma GoodGrows(logs: seq<seq<Event>>, origin: Checkpoint<nat>, w: seq<Item>, cut: set<Place>,
                  w': seq<Item>, cut': set<Place>, c: Checkpoint<nat>)
    requires w <= w' && cut <= cut' && Good(logs, origin, w, cut, c)
    ensures Good(logs, origin, w', cut', c)
  {
    var k: nat :| GoodAt(logs, origin, w, cut, c, k);
    CoverageGrows(logs, origin, w, cut, w', cut', c.name, k);
    assert GoodAt(logs, origin, w', cut', c, k);
  }

  lemma {:induction false} InGroupPrefix(a: seq<Event>, b: seq<Event>, k: nat)
    requires a <= b && k <= |a|
    ensures InGroup(a, k) == InGroup(b, k) && Offset(a, k) == Offset(b, k)
  {
    if k != 0 {
      InGroupPrefix(a, b, k - 1);
    }
  }

  /** The server writing more takes nothing away. */
  lemma GoodKeeps(logs: seq<seq<Event>>, logs': seq<seq<Event>>, origin: Checkpoint<nat>, w: seq<Item>,
                  cut: set<Place>, c: Checkpoint<nat>)
    requires Grows(logs, logs') && Good(logs, origin, w, cut, c)
    ensures Good(logs', origin, w, cut, c)
  {
    var k: nat :| GoodAt(logs, origin, w, cut, c, k);
    CoverageKeeps(logs, logs', origin, w, cut, c.name, k);
    InGroupPrefix(logs[c.name], logs'[c.name], k);
    assert GoodAt(logs', origin, w, cut, c, k);
  }

  lemma CoverageKeeps(logs: seq<seq<Event>>, logs': seq<seq<Event>>, origin: Checkpoint<nat>, w: seq<Item>,
                      cut: set<Place>, i: nat, k: nat)
    requires Grows(logs, logs') && i < |logs| && k <= |logs[i]| && CoveredUpTo(logs, origin, w, cut, i, k)
    ensures CoveredUpTo(logs', origin, w, cut, i, k)
  {
    forall j, m | 0 <= j < |logs'| && 0 <= m < |logs'[j]| && (j < i || (j == i && m < k))
                  && !Before(j, logs'[j][m].start, origin)
      ensures EventIn(w, cut, logs'[j][m], j, m)
    {
      assert logs'[j][m] == logs[j][m];
    }
  }

  /** Offsets order a file's events. */
  lemma {:induction false} OffsetsIncrease(log: seq<Event>, m: nat, k: nat)
    requires LogOk(log) && m <= k <= |log|
    ensures Offset(log, m) + (k - m) <= Offset(log, k)
  {
    if m < k {
      OffsetsIncrease(log, m, k - 1);
      assert EventOk(log, k - 1);
    }
  }

  /** What a good position promises, in terms of file offsets alone. */
  lemma GoodMeansCovered(logs: seq<seq<Event>>, origin: Checkpoint<nat>, w: seq<Item>, cut: set<Place>,
                         c: Checkpoint<nat>, j: nat, m: nat)
    requires LogsOk(logs) && Good(logs, origin, w, cut, c)
    requires j < |logs| && m < |logs[j]|
    requires Before(j, logs[j][m].start, c) && !Before(j, logs[j][m].start, origin)
    ensures EventIn(w, cut, logs[j][m], j, m)
  {
    var k: nat :| GoodAt(logs, origin, w, cut, c, k);
    assert EventOk(logs[j], m);
    if j == c.name && k <= m {
      OffsetsIncrease(logs[j], k, m);
      assert false;
    }
  }
}
