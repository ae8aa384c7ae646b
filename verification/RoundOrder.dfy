/**
 * The positions the listener saves during a round, on every run of the two threads, with the server,
 * the main thread and the listener interleaved in any way.
 */
module RoundOrder {
  import opened Bytes
  import opened Decimal
  import opened Markers
  import opened Listener
  import opened ServerLog
  import opened Protocol
  import opened ProtocolProof

  // ----- what is saved

  /** What acting on one line writes to the record, in order. */
  function Saved(s: State<nat>, ln: Line<nat>): seq<Option<Checkpoint<nat>>> {
    (if s.lo.data && !ln.Column? then [s.sh.inProgress] else [])
    + (if ln.Commit? || ln.Query? then [Listen(s, ln).sh.inProgress] else [])
  }

  function StepSaves(s: Sys, a: Action): seq<Option<Checkpoint<nat>>> {
    if a.Handle? && s.pending.Some? then Saved(s.st, s.pending.value.line)
    else if a.SaveStart? then [s.st.sh.seqn]
    else []
  }

  /** Everything a run writes to the record, in order. */
  ghost function Saves(cfg: Config, s: Sys, acts: seq<Action>): seq<Option<Checkpoint<nat>>>
    requires Run(cfg, s, acts).Some?
    decreases |acts|
  {
    if acts == [] then []
    else
      var most := acts[..|acts| - 1];
      Saves(cfg, s, most) + StepSaves(Run(cfg, s, most).value, acts[|acts| - 1])
  }

  function LastOr(cs: seq<Option<Checkpoint<nat>>>, c: Option<Checkpoint<nat>>): Option<Checkpoint<nat>> {
    if cs == [] then c else cs[|cs| - 1]
  }

  /** The record on disk is always the last thing saved. */
  lemma {:induction false} SavesAreTheRecord(cfg: Config, s: Sys, acts: seq<Action>)
    requires Run(cfg, s, acts).Some?
    ensures Run(cfg, s, acts).value.st.sh.xai == LastOr(Saves(cfg, s, acts), s.st.sh.xai)
    decreases |acts|
  {
    hide Enabled, Apply, Saved;
    if acts != [] {
      var n := |acts| - 1;
      var u := Run(cfg, s, acts[..n]).value;
      SavesAreTheRecord(cfg, s, acts[..n]);
      StepSavesTheRecord(cfg, u, acts[n]);
    }
  }

  lemma StepSavesTheRecord(cfg: Config, s: Sys, a: Action)
    requires Enabled(cfg, s, a)
    ensures Apply(cfg, s, a).st.sh.xai == LastOr(StepSaves(s, a), s.st.sh.xai)
  {
    hide EventOk, Offset, InGroup, Printed, BetweenGroups, EventAllowed;
  }

  // ----- order

  predicate NotAfter(a: Checkpoint<nat>, b: Checkpoint<nat>) {
    a.name < b.name || (a.name == b.name && a.pos <= b.pos)
  }

  ghost predicate Ascending(cs: seq<Option<Checkpoint<nat>>>, from: Checkpoint<nat>) {
    && (forall i :: 0 <= i < |cs| ==> cs[i].Some? && NotAfter(from, cs[i].value))
    && (forall i, j :: 0 <= i < j < |cs| ==> cs[i].Some? && cs[j].Some? && NotAfter(cs[i].value, cs[j].value))
  }

  /** The positions a round may save: its start, a file's header, a BEGIN, the end of a COMMIT or QUERY. */
  ghost predicate Allowed(logs: seq<seq<Event>>, start: Checkpoint<nat>, c: Checkpoint<nat>) {
    || c == start
    || (c.name < |logs| && c.pos == BIN_LOG_HEADER_SIZE)
    || (c.name < |logs| && exists k :: 0 <= k < |logs[c.name]| && Announces(logs[c.name][k], c.pos))
  }

  predicate Announces(e: Event, pos: nat) {
    (e.kind.Gtid? && pos == e.start) || (Closing(e) && pos == e.end)
  }

  ghost predicate AllAllowed(logs: seq<seq<Event>>, start: Checkpoint<nat>, cs: seq<Option<Checkpoint<nat>>>) {
    forall i :: 0 <= i < |cs| ==> cs[i].Some? && Allowed(logs, start, cs[i].value)
  }

  // ----- the progress along the lines that are still to be handled

  /** The file the listener is in, and how far it has come. */
  datatype Cursor = Cursor(name: nat, at: Checkpoint<nat>)

  /** What a line does to them; `first` names the file the round started with. */
  function Advance(first: nat, cu: Cursor, ln: Line<nat>): Cursor {
    match ln
    case Begin(pos, _, _) => cu.(at := Checkpoint(cu.name, pos, 0))
    case Commit(_, end, _) => cu.(at := Checkpoint(cu.name, end, 0))
    case Query(_, end) => cu.(at := Checkpoint(cu.name, end, 0))
    case Start(n) => Cursor(n, if n == first then cu.at else Checkpoint(n, BIN_LOG_HEADER_SIZE, 0))
    case First(n) => cu.(name := n)
    case _ => cu
  }

  /** The line moves the progress, in a round that started with the file `first`. */
  predicate Moves(first: nat, ln: Line<nat>) {
    ln.Begin? || ln.Commit? || ln.Query? || (ln.Start? && ln.name != first)
  }

  function AdvanceAll(first: nat, cu: Cursor, lines: seq<Line<nat>>): Cursor
    decreases |lines|
  {
    if lines == [] then cu else AdvanceAll(first, Advance(first, cu, lines[0]), lines[1..])
  }

  /** A move goes forward and to an allowed position. */
  ghost predicate GoesOn(logs: seq<seq<Event>>, start: Checkpoint<nat>, a: Checkpoint<nat>, b: Checkpoint<nat>) {
    b == a || (NotAfter(a, b) && Allowed(logs, start, b))
  }

  ghost predicate Ascends(logs: seq<seq<Event>>, start: Checkpoint<nat>, cu: Cursor, lines: seq<Line<nat>>)
    decreases |lines|
  {
    lines == [] ||
    var next := Advance(start.name, cu, lines[0]);
    GoesOn(logs, start, cu.at, next.at) && Ascends(logs, start, next, lines[1..])
  }

  lemma {:induction false} AscendsSnoc(logs: seq<seq<Event>>, start: Checkpoint<nat>, cu: Cursor,
                                       lines: seq<Line<nat>>, ln: Line<nat>)
    requires Ascends(logs, start, cu, lines)
    requires var end := AdvanceAll(start.name, cu, lines);
      GoesOn(logs, start, end.at, Advance(start.name, end, ln).at)
    ensures Ascends(logs, start, cu, lines + [ln])
    ensures AdvanceAll(start.name, cu, lines + [ln]) == Advance(start.name, AdvanceAll(start.name, cu, lines), ln)
    decreases |lines|
  {
    hide GoesOn, Advance;
    if lines == [] {
      assert (lines + [ln])[1..] == [];
    } else {
      AscendsSnoc(logs, start, Advance(start.name, cu, lines[0]), lines[1..], ln);
      assert (lines + [ln])[1..] == lines[1..] + [ln];
    }
  }

  lemma AllowedKeeps(logs: seq<seq<Event>>, logs': seq<seq<Event>>, start: Checkpoint<nat>, c: Checkpoint<nat>)
    requires Grows(logs, logs') && Allowed(logs, start, c)
    ensures Allowed(logs', start, c)
  {
    if c != start && c.pos != BIN_LOG_HEADER_SIZE {
      var k :| 0 <= k < |logs[c.name]| && Announces(logs[c.name][k], c.pos);
      assert logs'[c.name][k] == logs[c.name][k];
    }
  }

  lemma {:induction false} AscendsKeeps(logs: seq<seq<Event>>, logs': seq<seq<Event>>, start: Checkpoint<nat>,
                                        cu: Cursor, lines: seq<Line<nat>>)
    requires Grows(logs, logs') && Ascends(logs, start, cu, lines)
    ensures Ascends(logs', start, cu, lines)
    decreases |lines|
  {
    hide Allowed, Grows;
    if lines != [] {
      var next := Advance(start.name, cu, lines[0]);
      if next.at != cu.at {
        AllowedKeeps(logs, logs', start, next.at);
      }
      AscendsKeeps(logs, logs', start, next, lines[1..]);
    }
  }

  /** One line: the progress moves as `Advance` says, and what is saved is the old or the new one. */
  lemma ListenAdvances(s: State<nat>, first: nat, ln: Line<nat>)
    requires s.sh.first == Some(first) && s.sh.inProgress.Some?
    ensures var t, cu := Listen(s, ln), Cursor(s.lo.name, s.sh.inProgress.value);
      var next := Advance(first, cu, ln);
      && t.sh.first == s.sh.first && t.sh.inProgress == Some(next.at) && t.lo.name == next.name
      && (Saved(s, ln) == [] || Saved(s, ln) == [Some(cu.at)] || Saved(s, ln) == [Some(next.at)]
          || Saved(s, ln) == [Some(cu.at), Some(next.at)])
  {
  }

  // ----- the round

  function LinesOf(items: seq<Item>): seq<Line<nat>> {
    seq(|items|, i requires 0 <= i < |items| => items[i].line)
  }

  /** The lines printed and not yet handled. */
  function Coming(s: Sys): seq<Line<nat>> {
    (if s.pending.Some? then [s.pending.value.line] else []) + LinesOf(s.pipe)
  }

  function Now(s: Sys): Cursor
    requires s.st.sh.inProgress.Some?
  {
    Cursor(s.st.lo.name, s.st.sh.inProgress.value)
  }

  /** The main thread is not behind `end`, the progress once all printed lines are handled. */
  ghost predicate MainAhead(s: Sys, start: Checkpoint<nat>, end: Cursor) {
    match s.main
    case Opening(_, i, pos) =>
      && start.name <= i && NotAfter(end.at, Checkpoint(i, pos, 0))
      && pos == (if i == start.name then start.pos else BIN_LOG_HEADER_SIZE)
    case Reading(_, i, k, rest) =>
      && start.name <= i < |s.logs| && k <= |s.logs[i]| && end.name == i
      && (if rest == [] then NotAfter(end.at, Checkpoint(i, Offset(s.logs[i], k), 0))
          else k > 0 && Printing(s.logs[i], i, k, rest, end.at))
    case Ended(_) => true
    case LastSet => true
    case Waiting => true
    case Idle => true
    case Loaded(_, _, _) => true
    case _ => false
  }

  /** `rest` is still to be printed of event `k - 1`; before its marker, the progress is before the event. */
  ghost predicate Printing(log: seq<Event>, i: nat, k: nat, rest: seq<Item>, at: Checkpoint<nat>)
    requires 0 < k <= |log|
  {
    var all := Printed(log[k - 1], i, k - 1);
    && |rest| <= |all| && rest == all[|all| - |rest|..]
    && NotAfter(at, Checkpoint(i, Offset(log, if |rest| == |all| then k - 1 else k), 0))
  }

  ghost predicate OffsetsFit(logs: seq<seq<Event>>) {
    forall i, k :: 0 <= i < |logs| && 0 <= k < |logs[i]| ==> logs[i][k].end <= LONG_MAX
  }

  /** Between the moment the progress was set to `start` and the next round. */
  ghost predicate InRound(s: Sys, start: Checkpoint<nat>) {
    && LogsOk(s.logs) && OffsetsFit(s.logs) && s.st.sh.first == Some(start.name) && s.st.sh.inProgress.Some?
    && NotAfter(start, Now(s).at) && Allowed(s.logs, start, Now(s).at)
    && Ascends(s.logs, start, Now(s), Coming(s))
    && MainAhead(s, start, AdvanceAll(start.name, Now(s), Coming(s)))
  }

  // ----- one step of the round

  lemma ServerKeepsRound(s: Sys, logs': seq<seq<Event>>, start: Checkpoint<nat>)
    requires InRound(s, start) && LogsOk(logs') && Grows(s.logs, logs') && OffsetsFit(logs')
    ensures InRound(s.(logs := logs'), start)
  {
    hide LogsOk, OffsetsFit, Allowed, Ascends, NotAfter, AdvanceAll;
    AscendsKeeps(s.logs, logs', start, Now(s), Coming(s));
    AllowedKeeps(s.logs, logs', start, Now(s).at);
    if s.main.Reading? {
      var i, k := s.main.i, s.main.k;
      InGroupPrefix(s.logs[i], logs'[i], k);
      if k > 0 {
        InGroupPrefix(s.logs[i], logs'[i], k - 1);
      }
    }
  }

  lemma WriteKeepsRound(cfg: Config, s: Sys, start: Checkpoint<nat>)
    requires InRound(s, start) && Enabled(cfg, s, Write)
    ensures InRound(Apply(cfg, s, Write), start)
  {
    hide LogsOk, OffsetsFit, Allowed, Ascends, AdvanceAll, MainAhead;
    var t := Apply(cfg, s, Write);
    assert Coming(t) == Coming(s);
    assert MainAhead(t, start, AdvanceAll(start.name, Now(t), Coming(t))) by {
      SameMain(s, t, start, AdvanceAll(start.name, Now(t), Coming(t)));
    }
  }

  /** From a progress further back, the same lines go on forward, and not as far. */
  lemma {:induction false} AscendsFromLower(logs: seq<seq<Event>>, start: Checkpoint<nat>, cu: Cursor, lower: Cursor,
                                            lines: seq<Line<nat>>)
    requires Ascends(logs, start, cu, lines) && Allowed(logs, start, cu.at)
    requires lower.name == cu.name && NotAfter(lower.at, cu.at)
    ensures Ascends(logs, start, lower, lines)
    ensures var a, b := AdvanceAll(start.name, lower, lines), AdvanceAll(start.name, cu, lines);
      a.name == b.name && NotAfter(a.at, b.at)
    decreases |lines|
  {
    hide Allowed;
    if lines != [] {
      var next, next' := Advance(start.name, cu, lines[0]), Advance(start.name, lower, lines[0]);
      assert NotAfter(next'.at, next.at) && next'.name == next.name;
      AscendsFromLower(logs, start, next, next', lines[1..]);
    }
  }

  /** The main thread that is not behind some progress is not behind a lower one. */
  lemma MainAheadOfLower(s: Sys, start: Checkpoint<nat>, end: Cursor, lower: Cursor)
    requires MainAhead(s, start, end) && lower.name == end.name && NotAfter(lower.at, end.at)
    ensures MainAhead(s, start, lower)
  {
  }

  /** A line that is dropped may take a move of the progress with it, no more. */
  lemma DropKeepsRound(cfg: Config, s: Sys, start: Checkpoint<nat>)
    requires InRound(s, start) && Enabled(cfg, s, Drop)
    ensures InRound(Apply(cfg, s, Drop), start)
  {
    hide LogsOk, OffsetsFit, Allowed, MainAhead, AdvanceAll, Ascends;
    var t, cu, rest := Apply(cfg, s, Drop), Now(s), LinesOf(s.pipe[1..]);
    assert Coming(s) == [s.pipe[0].line] + rest;
    assert Coming(t) == [Text] + rest;
    DroppedLine(s.logs, start, cu, s.pipe[0].line, rest);
    MainAheadOfLower(s, start, AdvanceAll(start.name, cu, Coming(s)), AdvanceAll(start.name, cu, Coming(t)));
    SameMain(s, t, start, AdvanceAll(start.name, cu, Coming(t)));
  }

  lemma DroppedLine(logs: seq<seq<Event>>, start: Checkpoint<nat>, cu: Cursor, ln: Line<nat>, rest: seq<Line<nat>>)
    requires MayBeLong(ln) && Allowed(logs, start, cu.at) && Ascends(logs, start, cu, [ln] + rest)
    ensures Ascends(logs, start, cu, [Text] + rest)
    ensures var a, b := AdvanceAll(start.name, cu, [Text] + rest), AdvanceAll(start.name, cu, [ln] + rest);
      a.name == b.name && NotAfter(a.at, b.at)
  {
    hide Allowed;
    assert ([ln] + rest)[1..] == rest && ([Text] + rest)[1..] == rest;
    AscendsFromLower(logs, start, Advance(start.name, cu, ln), cu, rest);
  }

  lemma SameMain(s: Sys, t: Sys, start: Checkpoint<nat>, end: Cursor)
    requires s.main == t.main && s.logs == t.logs
    ensures MainAhead(s, start, end) == MainAhead(t, start, end)
  {
  }

  lemma HandleKeepsRound(cfg: Config, s: Sys, start: Checkpoint<nat>)
    requires InRound(s, start) && Enabled(cfg, s, Handle)
    ensures var t := Apply(cfg, s, Handle);
      && InRound(t, start) && NotAfter(Now(s).at, Now(t).at)
      && var cs := StepSaves(s, Handle);
         cs == [] || cs == [Some(Now(s).at)] || cs == [Some(Now(t).at)] || cs == [Some(Now(s).at), Some(Now(t).at)]
  {
    hide LogsOk, Allowed, MainAhead, Listen, Saved, Advance;
    var t := Apply(cfg, s, Handle);
    ListenAdvances(s.st, start.name, s.pending.value.line);
    assert Coming(s)[1..] == Coming(t);
    SameMain(s, t, start, AdvanceAll(start.name, Now(t), Coming(t)));
  }

  /** Printing a line: it may move the progress, forward. */
  lemma SendKeepsRound(s: Sys, it: Item, m: Main, start: Checkpoint<nat>)
    requires InRound(s, start)
    requires var end := AdvanceAll(start.name, Now(s), Coming(s));
      var next := Advance(start.name, end, it.line);
      GoesOn(s.logs, start, end.at, next.at) && MainAhead(Send(s, it).(main := m), start, next)
    ensures InRound(Send(s, it).(main := m), start)
  {
    hide LogsOk, Allowed, MainAhead, GoesOn, Advance, Ascends, AdvanceAll;
    AscendsSnoc(s.logs, start, Now(s), Coming(s), it.line);
    assert Coming(Send(s, it).(main := m)) == Coming(s) + [it.line];
  }

  /** A step of the main thread that prints nothing and leaves the progress alone. */
  lemma QuietKeepsRound(s: Sys, sh: Shared<nat>, m: Main, start: Checkpoint<nat>)
    requires InRound(s, start) && sh.first == s.st.sh.first && sh.inProgress == s.st.sh.inProgress
    requires MainAhead(SetShared(s, sh).(main := m), start, AdvanceAll(start.name, Now(s), Coming(s)))
    ensures InRound(SetShared(s, sh).(main := m), start)
  {
    hide LogsOk, Allowed, MainAhead, Ascends, AdvanceAll;
    assert Coming(SetShared(s, sh).(main := m)) == Coming(s);
  }

  lemma OpenKeepsRound(cfg: Config, s: Sys, k: nat, start: Checkpoint<nat>)
    requires InRound(s, start) && Enabled(cfg, s, Open(k))
    ensures InRound(Apply(cfg, s, Open(k)), start)
  {
    hide LogsOk, Ascends, AdvanceAll;
    var i := s.main.i;
    SendKeepsRound(s, Note(Start(i)), Reading(s.main.n, i, k, []), start);
  }

  lemma NextEventKeepsRound(cfg: Config, s: Sys, start: Checkpoint<nat>)
    requires InRound(s, start) && Enabled(cfg, s, NextEvent)
    ensures InRound(Apply(cfg, s, NextEvent), start)
  {
    hide LogsOk, Ascends, AdvanceAll, Allowed;
    var m, t := s.main, Apply(cfg, s, NextEvent);
    EventBounds(s.logs, m.i, m.k);
    QuietKeepsRound(s, s.st.sh, t.main, start);
  }

  lemma EventBounds(logs: seq<seq<Event>>, i: nat, k: nat)
    requires LogsOk(logs) && i < |logs| && k < |logs[i]|
    ensures EventOk(logs[i], k) && Offset(logs[i], k) < Offset(logs[i], k + 1) == logs[i][k].end
  {
    assert LogOk(logs[i]) && EventOk(logs[i], k);
  }

  /** What is still to be printed of an event starts with its marker, or with text. */
  lemma NextLine(e: Event, i: nat, k: nat, rest: seq<Item>)
    requires forall t :: 0 <= t < |e.text| ==> !e.text[t].IsMarker()
    requires rest != [] && |rest| <= |Printed(e, i, k)| && rest == Printed(e, i, k)[|Printed(e, i, k)| - |rest|..]
    ensures rest[1..] == Printed(e, i, k)[|Printed(e, i, k)| - |rest[1..]|..]
    ensures if |rest| == |Printed(e, i, k)| && MarkerOf(e) != [] then rest[0].line == MarkerOf(e)[0]
            else !rest[0].line.IsMarker()
  {
    var all := Printed(e, i, k);
    var j := |all| - |rest|;
    assert rest[0] == all[j];
    if j >= |MarkerOf(e)| {
      assert rest[0].line == e.text[j - |MarkerOf(e)|];
    }
  }

  /** A marker moves the progress from before its event to within it. */
  lemma MarkerAdvances(logs: seq<seq<Event>>, start: Checkpoint<nat>, i: nat, k: nat, end: Cursor)
    requires i < |logs| && k < |logs[i]| && EventOk(logs[i], k) && MarkerOf(logs[i][k]) != [] && end.name == i
    requires logs[i][k].end <= LONG_MAX
    requires NotAfter(end.at, Checkpoint(i, Offset(logs[i], k), 0))
    ensures var next := Advance(start.name, end, MarkerOf(logs[i][k])[0]);
      && GoesOn(logs, start, end.at, next.at) && next.name == i
      && NotAfter(next.at, Checkpoint(i, logs[i][k].end, 0))
  {
    hide InGroup;
    var e := logs[i][k];
    var next := Advance(start.name, end, MarkerOf(e)[0]);
    if e.kind.Gtid? || Closing(e) {
      assert Announces(e, next.at.pos);
    }
  }

  /** The next line of an event, given that the progress is not past the event before its marker. */
  lemma LineAdvances(logs: seq<seq<Event>>, start: Checkpoint<nat>, i: nat, k: nat, rest: seq<Item>, end: Cursor)
    requires LogsOk(logs) && OffsetsFit(logs) && i < |logs| && 0 < k <= |logs[i]| && rest != [] && end.name == i
    requires Printing(logs[i], i, k, rest, end.at)
    ensures var next := Advance(start.name, end, rest[0].line);
      && GoesOn(logs, start, end.at, next.at) && next.name == i
      && NotAfter(next.at, Checkpoint(i, Offset(logs[i], k), 0))
      && Printing(logs[i], i, k, rest[1..], next.at)
  {
    hide LogsOk, InGroup, Printed, MarkerOf, Allowed, Advance;
    var e := logs[i][k - 1];
    EventBounds(logs, i, k - 1);
    NextLine(e, i, k - 1, rest);
    if |rest| == |Printed(e, i, k - 1)| && MarkerOf(e) != [] {
      MarkerAdvances(logs, start, i, k - 1, end);
    } else {
      TextStays(start.name, end, rest[0].line);
    }
  }

  lemma TextStays(first: nat, cu: Cursor, ln: Line<nat>)
    requires !ln.IsMarker()
    ensures Advance(first, cu, ln) == cu
  {
  }

  lemma EmitKeepsRound(cfg: Config, s: Sys, start: Checkpoint<nat>)
    requires InRound(s, start) && Enabled(cfg, s, Emit)
    ensures InRound(Apply(cfg, s, Emit), start)
  {
    hide LogsOk, Ascends, AdvanceAll, Printing, GoesOn, NotAfter, Allowed, Advance, Offset, Printed;
    var m := s.main;
    LineAdvances(s.logs, start, m.i, m.k, m.rest, AdvanceAll(start.name, Now(s), Coming(s)));
    SendKeepsRound(s, m.rest[0], m.(rest := m.rest[1..]), start);
  }

  /** Lines that do not move the progress. */
  lemma StillLineKeepsRound(cfg: Config, s: Sys, a: Action, start: Checkpoint<nat>)
    requires InRound(s, start) && Enabled(cfg, s, a)
    requires a.Chat? || a.CloseFile? || a.FailFile? || a.AnnounceLast?
    ensures InRound(Apply(cfg, s, a), start)
  {
    hide LogsOk, Allowed, Ascends, AdvanceAll, InGroup, Printed;
    var it := Note(match a case Chat(line) => line case AnnounceLast => Last case _ => End);
    SendKeepsRound(s, it, Apply(cfg, s, a).main, start);
  }

  lemma QuietStepKeepsRound(cfg: Config, s: Sys, a: Action, start: Checkpoint<nat>)
    requires InRound(s, start) && Enabled(cfg, s, a)
    requires a.Load? || a.NameLast? || a.WaitSignalled? || a.WaitOther?
    ensures InRound(Apply(cfg, s, a), start)
  {
    hide LogsOk, Allowed, Ascends, AdvanceAll, InGroup, Printed;
    QuietKeepsRound(s, Apply(cfg, s, a).st.sh, Apply(cfg, s, a).main, start);
  }

  lemma FlushKeepsRound(cfg: Config, s: Sys, n: nat, start: Checkpoint<nat>)
    requires InRound(s, start) && Enabled(cfg, s, FlushSome(n))
    ensures InRound(Apply(cfg, s, FlushSome(n)), start)
  {
    hide LogsOk, Allowed, Ascends, AdvanceAll, MainAhead;
    var t := Apply(cfg, s, FlushSome(n));
    assert Coming(t) == Coming(s);
    SameMain(s, t, start, AdvanceAll(start.name, Now(t), Coming(t)));
  }

  lemma GrowthKeepsRound(cfg: Config, s: Sys, a: Action, start: Checkpoint<nat>)
    requires cfg.offsetsFit && InRound(s, start) && Enabled(cfg, s, a) && (a.Append? || a.NewFile?)
    ensures InRound(Apply(cfg, s, a), start)
  {
    hide Allowed, Ascends, AdvanceAll, MainAhead, LogsOk;
    assert OffsetsFit(Apply(cfg, s, a).logs);
    if a.Append? {
      AppendGrows(s.logs, a.e);
    } else {
      NewFileGrows(s.logs);
    }
    ServerKeepsRound(s, Apply(cfg, s, a).logs, start);
  }

  lemma StepKeepsRound(cfg: Config, s: Sys, a: Action, start: Checkpoint<nat>)
    requires cfg.offsetsFit && InRound(s, start) && Enabled(cfg, s, a) && !a.Handle?
    requires !a.ChooseStart? && !a.ClearRange? && !a.Crash?
    ensures InRound(Apply(cfg, s, a), start)
  {
    hide LogsOk, Allowed, Ascends, AdvanceAll, InGroup, Apply;
    match a
    case Append(_) => GrowthKeepsRound(cfg, s, a, start);
    case NewFile => GrowthKeepsRound(cfg, s, a, start);
    case Write => WriteKeepsRound(cfg, s, start);
    case Drop => DropKeepsRound(cfg, s, start);
    case FlushSome(n) => FlushKeepsRound(cfg, s, n, start);
    case Open(k) => OpenKeepsRound(cfg, s, k, start);
    case NextEvent => NextEventKeepsRound(cfg, s, start);
    case Emit => EmitKeepsRound(cfg, s, start);
    case Chat(_) => StillLineKeepsRound(cfg, s, a, start);
    case CloseFile => StillLineKeepsRound(cfg, s, a, start);
    case FailFile => StillLineKeepsRound(cfg, s, a, start);
    case AnnounceLast => StillLineKeepsRound(cfg, s, a, start);
    case Load => QuietStepKeepsRound(cfg, s, a, start);
    case NameLast => QuietStepKeepsRound(cfg, s, a, start);
    case WaitSignalled => QuietStepKeepsRound(cfg, s, a, start);
    case WaitOther => QuietStepKeepsRound(cfg, s, a, start);
  }

  /** Only acting on a line moves the progress, or saves it, while a round goes on. */
  lemma StepSavesNothing(cfg: Config, s: Sys, a: Action, start: Checkpoint<nat>)
    requires InRound(s, start) && Enabled(cfg, s, a) && !a.Handle?
    requires !a.ChooseStart? && !a.ClearRange? && !a.Crash?
    ensures StepSaves(s, a) == []
    ensures Apply(cfg, s, a).st.sh.inProgress == s.st.sh.inProgress && Apply(cfg, s, a).st.lo == s.st.lo
  {
    hide LogsOk, Allowed, Ascends, AdvanceAll, InGroup;
  }

  // ----- runs

  lemma AscendingAppend(a: seq<Option<Checkpoint<nat>>>, b: seq<Option<Checkpoint<nat>>>, from: Checkpoint<nat>,
                        cur: Checkpoint<nat>, next: Checkpoint<nat>)
    requires Ascending(a, from) && NotAfter(from, cur) && NotAfter(cur, next)
    requires forall i :: 0 <= i < |a| ==> NotAfter(a[i].value, cur)
    requires b == [] || b == [Some(cur)] || b == [Some(next)] || b == [Some(cur), Some(next)]
    ensures Ascending(a + b, from) && forall i :: 0 <= i < |a + b| ==> NotAfter((a + b)[i].value, next)
  {
  }

  /** The logs only grow. */
  lemma StepGrows(cfg: Config, s: Sys, a: Action)
    requires LogsOk(s.logs) && Enabled(cfg, s, a)
    ensures LogsOk(Apply(cfg, s, a).logs) && Grows(s.logs, Apply(cfg, s, a).logs)
  {
    hide LogsOk;
    if a.Append? {
      AppendGrows(s.logs, a.e);
    } else if a.NewFile? {
      NewFileGrows(s.logs);
    }
  }

  lemma AllAllowedKeeps(logs: seq<seq<Event>>, logs': seq<seq<Event>>, start: Checkpoint<nat>,
                        cs: seq<Option<Checkpoint<nat>>>)
    requires Grows(logs, logs') && AllAllowed(logs, start, cs)
    ensures AllAllowed(logs', start, cs)
  {
    hide Allowed, Grows;
    forall i | 0 <= i < |cs| ensures cs[i].Some? && Allowed(logs', start, cs[i].value) {
      AllowedKeeps(logs, logs', start, cs[i].value);
    }
  }

  /** What has been saved ascends, up to the progress. */
  ghost predicate SavedSoFar(cfg: Config, s: Sys, acts: seq<Action>, start: Checkpoint<nat>) {
    && Run(cfg, s, acts).Some?
    && var t, cs := Run(cfg, s, acts).value, Saves(cfg, s, acts);
      && InRound(t, start) && Ascending(cs, start) && AllAllowed(t.logs, start, cs)
      && forall i :: 0 <= i < |cs| ==> NotAfter(cs[i].value, Now(t).at)
  }

  lemma {:induction false} RoundIsOrdered(cfg: Config, s: Sys, acts: seq<Action>, start: Checkpoint<nat>)
    requires cfg.offsetsFit && InRound(s, start) && Run(cfg, s, acts).Some? && Steady(acts)
    ensures SavedSoFar(cfg, s, acts, start)
    decreases |acts|
  {
    hide InRound, Allowed, StepSaves, Enabled, Apply, Ascending, NotAfter;
    if acts == [] {
      NothingSaved(start);
    } else {
      var n := |acts| - 1;
      RoundIsOrdered(cfg, s, acts[..n], start);
      StepIsOrdered(cfg, s, acts, start);
    }
  }

  lemma NothingSaved(start: Checkpoint<nat>)
    ensures Ascending([], start)
  {
  }

  lemma StepIsOrdered(cfg: Config, s: Sys, acts: seq<Action>, start: Checkpoint<nat>)
    requires cfg.offsetsFit && acts != [] && Run(cfg, s, acts).Some? && Steady(acts)
    requires SavedSoFar(cfg, s, acts[..|acts| - 1], start)
    ensures SavedSoFar(cfg, s, acts, start)
  {
    hide Allowed, StepSaves, Enabled, Apply, Ascending, NotAfter, LogsOk, Grows, Ascends, AdvanceAll, MainAhead;
    var n := |acts| - 1;
    var u, a, before := Run(cfg, s, acts[..n]).value, acts[n], Saves(cfg, s, acts[..n]);
    var t := Apply(cfg, u, a);
    if a.Handle? {
      HandleKeepsRound(cfg, u, start);
      AscendingAppend(before, StepSaves(u, a), start, Now(u).at, Now(t).at);
    } else {
      StepKeepsRound(cfg, u, a, start);
      StepSavesNothing(cfg, u, a, start);
      assert before + [] == before;
    }
    StepGrows(cfg, u, a);
    AllAllowedKeeps(u.logs, t.logs, start, before);
    AllowedKeeps(u.logs, t.logs, start, Now(u).at);
  }

  // ----- how a round starts

  /** The logs are in order, and a round that is about to start has named its first file. */
  ghost predicate Sound(cfg: Config, s: Sys) {
    && LogsOk(s.logs) && EventsAllowed(cfg, s.logs)
    && (s.main.Named? || s.main.Announced? ==> s.st.sh.first == Some(s.main.i))
  }

  lemma {:induction false} RunIsSound(cfg: Config, s: Sys, acts: seq<Action>)
    requires Init(cfg, s) && Run(cfg, s, acts).Some?
    ensures Sound(cfg, Run(cfg, s, acts).value)
    decreases |acts|
  {
    hide LogsOk, EventsAllowed, Enabled, Apply, Init;
    if acts == [] {
      InitIsSound(cfg, s);
    } else {
      RunIsSound(cfg, s, acts[..|acts| - 1]);
      StepIsSound(cfg, Run(cfg, s, acts[..|acts| - 1]).value, acts[|acts| - 1]);
    }
  }

  lemma InitIsSound(cfg: Config, s: Sys)
    requires Init(cfg, s)
    ensures Sound(cfg, s)
  {
  }

  lemma StepIsSound(cfg: Config, s: Sys, a: Action)
    requires Sound(cfg, s) && Enabled(cfg, s, a)
    ensures Sound(cfg, Apply(cfg, s, a))
  {
    hide LogsOk, Grows, EventsAllowed;
    StepGrows(cfg, s, a);
    if a.Append? {
      AppendAllowed(cfg, s.logs, a.e);
    } else if a.NewFile? {
      NewFileAllowed(cfg, s.logs);
    }
  }

  /** The progress is about to be set, and no printed line still to be handled will move it. */
  ghost predicate CleanStart(s: Sys) {
    s.main.Announced? && forall i :: 0 <= i < |Coming(s)| ==> !Moves(s.main.i, Coming(s)[i])
  }

  function FirstPosition(s: Sys): Checkpoint<nat>
    requires s.main.Announced?
  {
    Checkpoint(s.main.i, s.main.pos, 0)
  }

  lemma {:induction false} StillLines(logs: seq<seq<Event>>, start: Checkpoint<nat>, cu: Cursor, lines: seq<Line<nat>>)
    requires forall i :: 0 <= i < |lines| ==> !Moves(start.name, lines[i])
    ensures Ascends(logs, start, cu, lines) && AdvanceAll(start.name, cu, lines).at == cu.at
    decreases |lines|
  {
    if lines != [] {
      StillLines(logs, start, Advance(start.name, cu, lines[0]), lines[1..]);
    }
  }

  lemma RoundBegins(cfg: Config, s: Sys)
    requires cfg.offsetsFit && Sound(cfg, s) && CleanStart(s)
    ensures Enabled(cfg, s, SetProgress) && InRound(Apply(cfg, s, SetProgress), FirstPosition(s))
  {
    hide LogsOk;
    assert OffsetsFit(s.logs);
    hide OffsetsFit, EventsAllowed;
    var t := Apply(cfg, s, SetProgress);
    assert Coming(t) == Coming(s);
    StillLines(t.logs, FirstPosition(s), Now(t), Coming(t));
  }

  /**
   * From the moment a round sets the progress, if nothing an earlier round printed can still move
   * it: until the next round, start or process, whatever is saved never goes back, is never before
   * the round's start, and is a position between transactions.
   */
  lemma SavedPositionsAscend(cfg: Config, s0: Sys, before: seq<Action>, acts: seq<Action>)
    requires cfg.offsetsFit && Init(cfg, s0)
    requires Run(cfg, s0, before).Some? && CleanStart(Run(cfg, s0, before).value)
    requires Steady(acts) && Run(cfg, Apply(cfg, Run(cfg, s0, before).value, SetProgress), acts).Some?
    ensures var s := Run(cfg, s0, before).value;
      var t := Apply(cfg, s, SetProgress);
      && Ascending(Saves(cfg, t, acts), FirstPosition(s))
      && AllAllowed(Run(cfg, t, acts).value.logs, FirstPosition(s), Saves(cfg, t, acts))
  {
    hide InRound, Init, Ascending, AllAllowed;
    var s := Run(cfg, s0, before).value;
    RunIsSound(cfg, s0, before);
    RoundBegins(cfg, s);
    RoundIsOrdered(cfg, Apply(cfg, s, SetProgress), acts, FirstPosition(s));
  }

  lemma {:induction false} RunConcat(cfg: Config, s: Sys, a: seq<Action>, b: seq<Action>)
    requires Run(cfg, s, a).Some? && Run(cfg, Run(cfg, s, a).value, b).Some?
    ensures Run(cfg, s, a + b) == Run(cfg, Run(cfg, s, a).value, b)
    decreases |b|
  {
    hide Enabled, Apply;
    if b == [] {
      assert a + b == a;
    } else {
      RunConcat(cfg, s, a, b[..|b| - 1]);
      assert (a + b)[..|a + b| - 1] == a + b[..|b| - 1];
    }
  }

  lemma {:induction false} SavesOfPrefix(cfg: Config, s: Sys, acts: seq<Action>, n: nat)
    requires n <= |acts| && Run(cfg, s, acts).Some?
    ensures Run(cfg, s, acts[..n]).Some? && Saves(cfg, s, acts[..n]) <= Saves(cfg, s, acts)
    decreases |acts|
  {
    hide StepSaves, Enabled, Apply;
    if n == |acts| {
      assert acts[..n] == acts;
    } else {
      SavesOfPrefix(cfg, s, acts[..|acts| - 1], n);
      assert acts[..|acts| - 1][..n] == acts[..n];
    }
  }

  /** If what is saved ascends, so does the record, once anything has been saved. */
  lemma RecordsAscend(cfg: Config, t: Sys, acts: seq<Action>, n: nat, start: Checkpoint<nat>)
    requires Run(cfg, t, acts).Some? && Ascending(Saves(cfg, t, acts), start) && n <= |acts|
    ensures Run(cfg, t, acts[..n]).Some? && (Saves(cfg, t, acts[..n]) != [] ==>
      var earlier, later := Run(cfg, t, acts[..n]).value.st.sh.xai, Run(cfg, t, acts).value.st.sh.xai;
      earlier.Some? && later.Some? && NotAfter(earlier.value, later.value))
  {
    hide Run, Saves;
    SavesOfPrefix(cfg, t, acts, n);
    SavesAreTheRecord(cfg, t, acts[..n]);
    SavesAreTheRecord(cfg, t, acts);
  }

  /** So the record on disk, once the round has saved anything, never goes back either. */
  lemma RecordAscends(cfg: Config, s0: Sys, before: seq<Action>, acts: seq<Action>, n: nat)
    requires cfg.offsetsFit && Init(cfg, s0)
    requires Run(cfg, s0, before).Some? && CleanStart(Run(cfg, s0, before).value)
    requires Steady(acts) && Run(cfg, Apply(cfg, Run(cfg, s0, before).value, SetProgress), acts).Some?
    requires n <= |acts|
    ensures var t := Apply(cfg, Run(cfg, s0, before).value, SetProgress);
      Run(cfg, t, acts[..n]).Some? && (Saves(cfg, t, acts[..n]) != [] ==>
        var earlier, later := Run(cfg, t, acts[..n]).value.st.sh.xai, Run(cfg, t, acts).value.st.sh.xai;
        earlier.Some? && later.Some? && NotAfter(earlier.value, later.value))
  {
    hide Init, Run, Apply, Saves;
    var t := Apply(cfg, Run(cfg, s0, before).value, SetProgress);
    SavedPositionsAscend(cfg, s0, before, acts);
    RecordsAscend(cfg, t, acts, n, FirstPosition(Run(cfg, s0, before).value));
  }
}
