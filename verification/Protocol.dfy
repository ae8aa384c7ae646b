/**
 * The main thread, the listener thread, the pipe between them and the server, as atomic steps. The
 * record on disk and the flushed capture survive a crash; everything else does not.
 */
module Protocol {
  import opened Bytes
  import opened Decimal
  import opened Markers
  import opened Listener
  import opened ServerLog

  datatype Config = Config(
    flush: bool,        // the listener flushes each line before acting on it
    readsHold: bool,    // no read of a file stops before the file's end
    offsetsFit: bool,   // every offset in a log fits in a long
    linesFit: bool,     // every line fits in the listener's buffer, or is column data
    signalled: bool,    // no wait for the end of a round ends but by its signal
    closingText: bool)  // closing events may print text after their marker
  {
    /** What at-least-once capture rests on. */
    predicate Careful() {
      flush && readsHold && offsetsFit && linesFit
    }
  }

  /** Where the main thread is in its loop; `n` is the number of files it was told of. */
  datatype Main =
    | Idle
    | SavingStart
    | Loaded(n: nat, i: nat, pos: nat)
    | Cleared(n: nat, i: nat, pos: nat)
    | Named(n: nat, i: nat, pos: nat)
    | Announced(n: nat, i: nat, pos: nat)
    | Opening(n: nat, i: nat, pos: nat)
    | Reading(n: nat, i: nat, k: nat, rest: seq<Item>)  // `rest` of event k - 1 is still to be printed
    | Ended(n: nat)
    | LastSet
    | Waiting

  datatype Sys = Sys(
    logs: seq<seq<Event>>,
    disk: seq<Item>, cache: seq<Item>,  // captured lines, flushed and not
    pipe: seq<Item>,
    pending: Option<Item>,              // captured, not yet acted on
    st: State<nat>,
    main: Main,
    origin: Option<Checkpoint<nat>>,    // where capture began
    cut: set<Place>)                    // for the proof: what the record was when the process died

  datatype Action =
    // the server
    | Append(e: Event) | NewFile
    // the listener: write a line, act on it; stdio may flush at any time
    | Write | Drop | FlushSome(n: nat) | Handle
    // the main thread
    | ChooseStart(c: Checkpoint<nat>) | SaveStart
    | Load | ClearRange | NameFirst | Announce | SetProgress
    | Open(k: nat) | Chat(line: Line<nat>) | NextEvent | Emit | CloseFile | FailFile
    | NameLast | AnnounceLast | WaitSignalled | WaitOther
    // the process dies and is started again; the thread's memory is whatever it is
    | Crash(lo: Local<nat>)

  function Written(s: Sys): seq<Item> {
    s.disk + s.cache
  }

  function NoShared(xai: Option<Checkpoint<nat>>): Shared<nat> {
    Shared(xai, None, xai, None, None, false)
  }

  predicate FreshThread(lo: Local<nat>) {
    !lo.stmt && !lo.query && !lo.data
  }

  predicate EventAllowed(cfg: Config, e: Event) {
    (Closing(e) && e.text != [] ==> cfg.closingText) && (cfg.offsetsFit ==> e.end <= LONG_MAX)
  }

  ghost predicate EventsAllowed(cfg: Config, logs: seq<seq<Event>>) {
    forall i, k :: 0 <= i < |logs| && 0 <= k < |logs[i]| ==> EventAllowed(cfg, logs[i][k])
  }

  /** Lines whose length has no bound of its own: a query's marker carries the statement. */
  predicate MayBeLong(line: Line<nat>) {
    line.Query? || line.Text?
  }

  function PlacesOf(c: Option<Checkpoint<nat>>): set<Place> {
    if c.Some? then {PlaceOf(c.value)} else {}
  }

  ghost predicate BoundaryAt(log: seq<Event>, k: nat, pos: nat) {
    k <= |log| && Offset(log, k) == pos && !InGroup(log, k)
  }

  /** The position is an event boundary with no transaction open. */
  ghost predicate BetweenGroups(logs: seq<seq<Event>>, c: Checkpoint<nat>) {
    c.name < |logs| && exists k: nat :: BoundaryAt(logs[c.name], k, c.pos)
  }

  ghost predicate Enabled(cfg: Config, s: Sys, a: Action) {
    match a
    case Append(e) => s.logs != [] && EventOk(s.logs[|s.logs| - 1] + [e], |s.logs[|s.logs| - 1]|)
      && EventAllowed(cfg, e)
    case NewFile => s.logs == [] || !InGroup(s.logs[|s.logs| - 1], |s.logs[|s.logs| - 1]|)
    case Write => s.pending == None && s.pipe != []
    case Drop => !cfg.linesFit && s.pending == None && s.pipe != [] && MayBeLong(s.pipe[0].line) && !s.st.lo.data
    case FlushSome(n) => n <= |s.cache|
    case Handle => s.pending.Some? && (cfg.flush ==> s.cache == [])
    case ChooseStart(c) => s.main.Idle? && s.st.sh.seqn == None && c.index == 0 && BetweenGroups(s.logs, c)
    case SaveStart => s.main.SavingStart?
    case Load => s.main.Idle? && s.st.sh.seqn.Some? && s.st.sh.seqn.value.name < |s.logs|
    case ClearRange => s.main.Loaded?
    case NameFirst => s.main.Cleared?
    case Announce => s.main.Named?
    case SetProgress => s.main.Announced?
    case Open(k) => s.main.Opening? && s.main.i < |s.logs| && k <= |s.logs[s.main.i]|
      && Offset(s.logs[s.main.i], k) == s.main.pos
    case Chat(line) => s.main.Reading? && s.main.rest == [] && !line.IsMarker()
    case NextEvent => s.main.Reading? && s.main.rest == [] && s.main.i < |s.logs| && s.main.k < |s.logs[s.main.i]|
    case Emit => s.main.Reading? && s.main.rest != []
    case CloseFile => s.main.Reading? && s.main.rest == [] && s.main.i < |s.logs|
      && s.main.k == |s.logs[s.main.i]|
    case FailFile => s.main.Reading? && !cfg.readsHold
    case NameLast => s.main.Ended? && s.main.n > 0
    case AnnounceLast => s.main.LastSet?
    case WaitSignalled => s.main.Waiting? && s.st.sh.endEvent
    case WaitOther => s.main.Waiting? && !cfg.signalled
    case Crash(lo) => FreshThread(lo)
  }

  function Send(s: Sys, it: Item): Sys {
    s.(pipe := s.pipe + [it])
  }

  function SetShared(s: Sys, sh: Shared<nat>): Sys {
    s.(st := s.st.(sh := sh))
  }

  /** End of one file's read: the next file of the list, or the end of the round. */
  function EndFile(s: Sys): Sys
    requires s.main.Reading?
  {
    var m := s.main;
    Send(s, Note(End)).(main := if m.i + 1 < m.n then Opening(m.n, m.i + 1, BIN_LOG_HEADER_SIZE) else Ended(m.n))
  }

  ghost function Apply(cfg: Config, s: Sys, a: Action): Sys
    requires Enabled(cfg, s, a)
  {
    var sh, m := s.st.sh, s.main;
    match a
    case Append(e) => s.(logs := s.logs[|s.logs| - 1 := s.logs[|s.logs| - 1] + [e]])
    case NewFile => s.(logs := s.logs + [[]])
    case Write => s.(cache := s.cache + [s.pipe[0]], pipe := s.pipe[1..], pending := Some(s.pipe[0]))
    case Drop => // what has filled the buffer is lost, the end of the line is captured as a line of its own
      s.(cache := s.cache + [Note(Text)], pipe := s.pipe[1..], pending := Some(Note(Text)))
    case FlushSome(n) => s.(disk := s.disk + s.cache[..n], cache := s.cache[n..])
    case Handle => s.(pending := None, st := Listen(s.st, s.pending.value.line))
    case ChooseStart(c) => SetShared(s, sh.(seqn := Some(c))).(origin := Some(c), main := SavingStart)
    case SaveStart => SetShared(s, sh.(xai := sh.seqn)).(main := Idle)
    case Load => s.(main := Loaded(|s.logs|, sh.seqn.value.name, sh.seqn.value.pos))
    case ClearRange => SetShared(s, sh.(first := None, last := None)).(main := Cleared(m.n, m.i, m.pos))
    case NameFirst => SetShared(s, sh.(first := Some(m.i))).(main := Named(m.n, m.i, m.pos))
    case Announce => Send(s, Note(First(m.i))).(main := Announced(m.n, m.i, m.pos))
    case SetProgress =>
      SetShared(s, sh.(inProgress := Some(Checkpoint(m.i, m.pos, 0)))).(main := Opening(m.n, m.i, m.pos))
    case Open(k) => Send(s, Note(Start(m.i))).(main := Reading(m.n, m.i, k, []))
    case Chat(line) => Send(s, Note(line))
    case NextEvent => s.(main := m.(k := m.k + 1, rest := Printed(s.logs[m.i][m.k], m.i, m.k)))
    case Emit => Send(s, m.rest[0]).(main := m.(rest := m.rest[1..]))
    case CloseFile => EndFile(s)
    case FailFile => EndFile(s)
    case NameLast => SetShared(s, sh.(last := Some(m.n - 1))).(main := LastSet)
    case AnnounceLast => Send(s, Note(Last)).(main := Waiting)
    case WaitSignalled => SetShared(s, sh.(endEvent := false)).(main := Idle)
    case WaitOther => SetShared(s, sh.(seqn := sh.inProgress)).(main := Idle)
    case Crash(lo) =>
      s.(cache := [], pipe := [], pending := None, main := Idle, st := State(NoShared(sh.xai), lo),
         cut := s.cut + PlacesOf(sh.xai))
  }

  /** The first start: no record on disk, nothing captured. */
  ghost predicate Init(cfg: Config, s: Sys) {
    && LogsOk(s.logs) && EventsAllowed(cfg, s.logs)
    && s.disk == [] && s.cache == [] && s.pipe == [] && s.pending == None
    && s.st.sh == NoShared(None) && FreshThread(s.st.lo)
    && s.main == Idle && s.origin == None && s.cut == {}
  }

  /** The state after a run, if every step of it can be taken. */
  ghost function Run(cfg: Config, s: Sys, acts: seq<Action>): Option<Sys>
    decreases |acts|
  {
    if acts == [] then Some(s)
    else match Run(cfg, s, acts[..|acts| - 1])
      case None => None
      case Some(u) =>
        var a := acts[|acts| - 1];
        if Enabled(cfg, u, a) then Some(Apply(cfg, u, a)) else None
  }

  /** No new start, round or process. */
  predicate Steady(acts: seq<Action>) {
    forall n :: 0 <= n < |acts| ==> !acts[n].ChooseStart? && !acts[n].ClearRange? && !acts[n].Crash?
  }

  // ----- what is promised

  /**
   * Every event from the origin up to the position has been captured in `w`; of closing events that
   * end in `cut`, at least the marker.
   */
  ghost predicate Covered(s: Sys, w: seq<Item>, cut: set<Place>, c: Checkpoint<nat>) {
    && s.origin.Some?
    && forall j, m | 0 <= j < |s.logs| && 0 <= m < |s.logs[j]| ::
      Before(j, s.logs[j][m].start, c) && !Before(j, s.logs[j][m].start, s.origin.value)
      ==> EventIn(w, cut, s.logs[j][m], j, m)
  }

  ghost predicate Kept(s: Sys, w: seq<Item>, cut: set<Place>, c: Option<Checkpoint<nat>>) {
    c.Some? ==> Covered(s, w, cut, c.value) && BetweenGroups(s.logs, c.value)
  }

  /**
   * Every position held in memory is covered by what was captured, the record by what a crash
   * leaves. Only two kinds of closing events may lack their text: one that ends exactly at the
   * position itself, and one that ended at the record when the process died.
   */
  ghost predicate AtLeastOnce(s: Sys) {
    && Kept(s, Written(s), s.cut + PlacesOf(s.st.sh.seqn), s.st.sh.seqn)
    && Kept(s, Written(s), s.cut + PlacesOf(s.st.sh.inProgress), s.st.sh.inProgress)
    && Kept(s, s.disk, s.cut + PlacesOf(s.st.sh.xai), s.st.sh.xai)
  }

  /** The same with every event whole. */
  ghost predicate Whole(s: Sys) {
    Kept(s, Written(s), {}, s.st.sh.seqn) && Kept(s, Written(s), {}, s.st.sh.inProgress)
    && Kept(s, s.disk, {}, s.st.sh.xai)
  }

  // ----- the invariant

  function Stream(s: Sys): seq<Item> {
    Written(s) + s.pipe
  }

  /** Everything captured or on its way, with what is left to print of the current event. */
  function Flow(s: Sys): seq<Item> {
    Stream(s) + if s.main.Reading? then s.main.rest else []
  }

  /**
   * Everything before the position is in `w`, except perhaps the text of a closing event that ends
   * at it; and that text is on its way.
   */
  ghost predicate GoodIn(s: Sys, w: seq<Item>, c: Checkpoint<nat>) {
    && s.origin.Some?
    && Good(s.logs, s.origin.value, w, s.cut + {PlaceOf(c)}, c)
    && Good(s.logs, s.origin.value, Flow(s), s.cut, c)
  }

  ghost predicate GoodOpt(s: Sys, w: seq<Item>, c: Option<Checkpoint<nat>>) {
    c.Some? ==> GoodIn(s, w, c.value)
  }

  /** What acting on a line makes of the progress is a good position. `w` ends with the line. */
  ghost predicate LineGood(s: Sys, w: seq<Item>, name: nat, line: Line<nat>) {
    match line
    case Begin(pos, _, _) => GoodIn(s, w, Checkpoint(name, pos, 0))
    case Commit(_, end, _) => GoodIn(s, w, Checkpoint(name, end, 0))
    case Query(_, end) => GoodIn(s, w, Checkpoint(name, end, 0))
    case Start(n) => GoodIn(s, w, Checkpoint(n, BIN_LOG_HEADER_SIZE, 0))
    case _ => true
  }

  function NameAfter(name: nat, lines: seq<Item>): nat {
    if lines == [] then name
    else match lines[|lines| - 1].line
      case Start(n) => n
      case First(n) => n
      case _ => NameAfter(name, lines[..|lines| - 1])
  }

  /** The file the listener is in once it has acted on the line it captured last. */
  function CurrentName(s: Sys): nat {
    NameAfter(s.st.lo.name, if s.pending.Some? then [s.pending.value] else [])
  }

  ghost predicate PipeGood(s: Sys) {
    forall t :: 0 <= t < |s.pipe| ==>
      LineGood(s, Written(s) + s.pipe[..t + 1], NameAfter(CurrentName(s), s.pipe[..t]), s.pipe[t].line)
  }

  ghost predicate PendingGood(s: Sys) {
    s.pending.Some? ==> LineGood(s, Written(s), s.st.lo.name, s.pending.value.line)
  }

  /** The printed part of event `k - 1` ends the stream, and every event before it is in the stream. */
  ghost predicate ReadingGood(s: Sys)
    requires s.main.Reading?
  {
    var m := s.main;
    && m.i < m.n <= |s.logs| && m.k <= |s.logs[m.i]| && s.origin.Some?
    && NameAfter(CurrentName(s), s.pipe) == m.i
    && if m.rest == [] then CoveredUpTo(s.logs, s.origin.value, Stream(s), s.cut, m.i, m.k)
       else
         && m.k > 0 && CoveredUpTo(s.logs, s.origin.value, Stream(s), s.cut, m.i, m.k - 1)
         && PartlyPrinted(Stream(s), Printed(s.logs[m.i][m.k - 1], m.i, m.k - 1), m.rest)
  }

  ghost predicate PartlyPrinted(w: seq<Item>, all: seq<Item>, rest: seq<Item>) {
    && |rest| <= |all| && rest == all[|all| - |rest|..]
    && |all| - |rest| <= |w| && w[|w| - (|all| - |rest|)..] == all[..|all| - |rest|]
  }

  ghost predicate MainGood(s: Sys) {
    match s.main
    case SavingStart => s.st.sh.seqn.Some? && GoodIn(s, [], s.st.sh.seqn.value) && s.pipe == [] && s.pending == None
    case Loaded(n, i, pos) => i < n <= |s.logs| && GoodIn(s, Written(s), Checkpoint(i, pos, 0))
    case Cleared(n, i, pos) => i < n <= |s.logs| && GoodIn(s, Written(s), Checkpoint(i, pos, 0))
    case Named(n, i, pos) => i < n <= |s.logs| && GoodIn(s, Written(s), Checkpoint(i, pos, 0))
    case Announced(n, i, pos) => i < n <= |s.logs| && GoodIn(s, Written(s), Checkpoint(i, pos, 0))
    case Opening(n, i, pos) => i < n <= |s.logs| && GoodIn(s, Stream(s), Checkpoint(i, pos, 0))
    case Reading(_, _, _, _) => ReadingGood(s)
    case _ => true
  }

  /** Before the first round has set the progress, nothing but its announcement is on its way. */
  ghost predicate ProgressKnown(s: Sys) {
    && (s.st.sh.seqn == None ==>
          s.st.sh.xai == None && s.st.sh.inProgress == None && s.main.Idle? && s.pipe == [] && s.pending == None)
    && (s.st.sh.inProgress == None ==>
          && (s.main.Idle? || s.main.SavingStart? || s.main.Loaded? || s.main.Cleared? || s.main.Named?
              || s.main.Announced?)
          && (forall t :: 0 <= t < |s.pipe| ==> s.pipe[t].line.First?)
          && (s.pending.Some? ==> s.pending.value.line.First?))
  }

  ghost predicate PositionsGood(cfg: Config, s: Sys) {
    && GoodOpt(s, Written(s), s.st.sh.seqn)
    && GoodOpt(s, Written(s), s.st.sh.inProgress)
    && GoodOpt(s, Written(s), s.st.sh.xai)
    && (cfg.flush ==> GoodOpt(s, s.disk, s.st.sh.xai))
  }

  ghost predicate Inv(cfg: Config, s: Sys) {
    && LogsOk(s.logs) && EventsAllowed(cfg, s.logs)
    && PositionsGood(cfg, s)
    && PendingGood(s) && PipeGood(s) && MainGood(s) && ProgressKnown(s)
  }
}
