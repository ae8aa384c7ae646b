/** At-least-once capture, over every run of the two threads. */
module ProtocolProof {
  import opened Bytes
  import opened Decimal
  import opened Markers
  import opened Listener
  import opened ServerLog
  import opened Protocol

  lemma {:induction false} NameAfterConcat(name: nat, a: seq<Item>, b: seq<Item>)
    ensures NameAfter(name, a + b) == NameAfter(NameAfter(name, a), b)
  {
    if b == [] {
      assert a + b == a;
    } else {
      assert (a + b)[..|a + b| - 1] == a + b[..|b| - 1];
      NameAfterConcat(name, a, b[..|b| - 1]);
    }
  }

  lemma GoodInGrows(s: Sys, w: seq<Item>, w': seq<Item>, c: Checkpoint<nat>)
    requires GoodIn(s, w, c) && w <= w'
    ensures GoodIn(s, w', c)
  {
    var cut := s.cut + {PlaceOf(c)};
    GoodGrows(s.logs, s.origin.value, w, cut, w', cut, c);
  }

  lemma PositionsGrow(s: Sys, w: seq<Item>, w': seq<Item>, c: Option<Checkpoint<nat>>)
    requires GoodOpt(s, w, c) && w <= w'
    ensures GoodOpt(s, w', c)
  {
    if c.Some? {
      GoodInGrows(s, w, w', c.value);
    }
  }

  // ----- the server

  lemma EventOkPrefix(a: seq<Event>, b: seq<Event>, k: nat)
    requires a <= b && k < |a| && EventOk(a, k)
    ensures EventOk(b, k)
  {
    InGroupPrefix(a, b, k);
  }

  lemma AppendGrows(logs: seq<seq<Event>>, e: Event)
    requires logs != [] && LogsOk(logs) && EventOk(logs[|logs| - 1] + [e], |logs[|logs| - 1]|)
    ensures var logs' := logs[|logs| - 1 := logs[|logs| - 1] + [e]]; LogsOk(logs') && Grows(logs, logs')
  {
    var last := logs[|logs| - 1];
    forall k | 0 <= k < |last + [e]| ensures EventOk(last + [e], k) {
      if k < |last| {
        assert EventOk(last, k);
        EventOkPrefix(last, last + [e], k);
      }
    }
    assert LogOk(last + [e]);
  }

  lemma NewFileGrows(logs: seq<seq<Event>>)
    requires LogsOk(logs) && (logs == [] || !InGroup(logs[|logs| - 1], |logs[|logs| - 1]|))
    ensures LogsOk(logs + [[]]) && Grows(logs, logs + [[]])
  {
  }

  lemma AppendAllowed(cfg: Config, logs: seq<seq<Event>>, e: Event)
    requires logs != [] && EventsAllowed(cfg, logs) && EventAllowed(cfg, e)
    ensures EventsAllowed(cfg, logs[|logs| - 1 := logs[|logs| - 1] + [e]])
  {
  }

  lemma NewFileAllowed(cfg: Config, logs: seq<seq<Event>>)
    requires EventsAllowed(cfg, logs)
    ensures EventsAllowed(cfg, logs + [[]])
  {
  }

  lemma GoodInKeeps(s: Sys, logs': seq<seq<Event>>, w: seq<Item>, c: Checkpoint<nat>)
    requires Grows(s.logs, logs') && GoodIn(s, w, c)
    ensures GoodIn(s.(logs := logs'), w, c)
  {
    assert Flow(s.(logs := logs')) == Flow(s);
    GoodKeeps(s.logs, logs', s.origin.value, w, s.cut + {PlaceOf(c)}, c);
    GoodKeeps(s.logs, logs', s.origin.value, Flow(s), s.cut, c);
  }

  lemma LineGoodKeeps(s: Sys, logs': seq<seq<Event>>, w: seq<Item>, name: nat, line: Line<nat>)
    requires Grows(s.logs, logs') && LineGood(s, w, name, line)
    ensures LineGood(s.(logs := logs'), w, name, line)
  {
    match line
    case Begin(pos, _, _) => GoodInKeeps(s, logs', w, Checkpoint(name, pos, 0));
    case Commit(_, end, _) => GoodInKeeps(s, logs', w, Checkpoint(name, end, 0));
    case Query(_, end) => GoodInKeeps(s, logs', w, Checkpoint(name, end, 0));
    case Start(n) => GoodInKeeps(s, logs', w, Checkpoint(n, BIN_LOG_HEADER_SIZE, 0));
    case _ =>
  }

  lemma OptKeeps(s: Sys, logs': seq<seq<Event>>, w: seq<Item>, c: Option<Checkpoint<nat>>)
    requires Grows(s.logs, logs') && GoodOpt(s, w, c)
    ensures GoodOpt(s.(logs := logs'), w, c)
  {
    if c.Some? {
      GoodInKeeps(s, logs', w, c.value);
    }
  }

  lemma ServerStep(cfg: Config, s: Sys, logs': seq<seq<Event>>)
    requires Inv(cfg, s) && Grows(s.logs, logs') && LogsOk(logs') && EventsAllowed(cfg, logs')
    ensures Inv(cfg, s.(logs := logs'))
  {
    hide Good, LogsOk, LineGood, GoodIn, GoodOpt, CoveredUpTo, EventsAllowed;
    var t := s.(logs := logs');
    OptKeeps(s, logs', Written(s), s.st.sh.seqn);
    OptKeeps(s, logs', Written(s), s.st.sh.inProgress);
    OptKeeps(s, logs', Written(s), s.st.sh.xai);
    if cfg.flush {
      OptKeeps(s, logs', s.disk, s.st.sh.xai);
    }
    if s.pending.Some? {
      LineGoodKeeps(s, logs', Written(s), s.st.lo.name, s.pending.value.line);
    }
    assert CurrentName(t) == CurrentName(s);
    forall i | 0 <= i < |t.pipe|
      ensures LineGood(t, Written(t) + t.pipe[..i + 1], NameAfter(CurrentName(t), t.pipe[..i]), t.pipe[i].line)
    {
      LineGoodKeeps(s, logs', Written(s) + s.pipe[..i + 1], NameAfter(CurrentName(s), s.pipe[..i]), s.pipe[i].line);
    }
    MainKeeps(s, logs');
  }

  lemma MainKeeps(s: Sys, logs': seq<seq<Event>>)
    requires MainGood(s) && Grows(s.logs, logs')
    ensures MainGood(s.(logs := logs'))
  {
    hide Good, CoveredUpTo, GoodIn;
    match s.main
    case SavingStart => GoodInKeeps(s, logs', [], s.st.sh.seqn.value);
    case Loaded(n, i, pos) => GoodInKeeps(s, logs', Written(s), Checkpoint(i, pos, 0));
    case Cleared(n, i, pos) => GoodInKeeps(s, logs', Written(s), Checkpoint(i, pos, 0));
    case Named(n, i, pos) => GoodInKeeps(s, logs', Written(s), Checkpoint(i, pos, 0));
    case Announced(n, i, pos) => GoodInKeeps(s, logs', Written(s), Checkpoint(i, pos, 0));
    case Opening(n, i, pos) => GoodInKeeps(s, logs', Stream(s), Checkpoint(i, pos, 0));
    case Reading(_, i, k, rest) =>
      CoverageKeeps(s.logs, logs', s.origin.value, Stream(s), s.cut, i, if rest == [] then k else k - 1);
    case _ =>
  }

  // ----- the listener

  lemma WriteStep(cfg: Config, s: Sys)
    requires Inv(cfg, s) && Enabled(cfg, s, Write)
    ensures Inv(cfg, Apply(cfg, s, Write))
  {
    hide Good, LogsOk, LineGood, GoodIn, GoodOpt, CoveredUpTo, PartlyPrinted, PipeGood, NameAfter;
    var t := Apply(cfg, s, Write);
    assert Written(t) == Written(s) + [s.pipe[0]];
    assert Stream(t) == Stream(s) by {
      assert s.pipe == [s.pipe[0]] + t.pipe;
    }
    PositionsGrow(s, Written(s), Written(t), s.st.sh.seqn);
    PositionsGrow(s, Written(s), Written(t), s.st.sh.inProgress);
    PositionsGrow(s, Written(s), Written(t), s.st.sh.xai);
    SameLogs(s, t);
    WritePipe(s, t);
    if s.main.Loaded? || s.main.Cleared? || s.main.Named? || s.main.Announced? {
      GoodInGrows(s, Written(s), Written(t), Checkpoint(s.main.i, s.main.pos, 0));
    }
  }

  /** Taking the first line off the pipe. */
  lemma WritePipe(s: Sys, t: Sys)
    requires PipeGood(s) && s.pending == None && s.pipe != []
    requires t == s.(cache := s.cache + [s.pipe[0]], pipe := s.pipe[1..], pending := Some(s.pipe[0]))
    ensures PipeGood(t) && PendingGood(t)
    ensures NameAfter(CurrentName(t), t.pipe) == NameAfter(CurrentName(s), s.pipe)
  {
    hide LineGood, GoodIn, NameAfter, Flow;
    var it := s.pipe[0];
    WriteFlows(s, t);
    SameLogs(s, t);
    FirstName(s.st.lo.name, it, t.pipe);
    assert LineGood(s, Written(s) + s.pipe[..1], NameAfter(CurrentName(s), s.pipe[..0]), it.line);
    forall i | 0 <= i < |t.pipe|
      ensures LineGood(t, Written(t) + t.pipe[..i + 1], NameAfter(CurrentName(t), t.pipe[..i]), t.pipe[i].line)
    {
      assert t.pipe[i] == s.pipe[i + 1] && t.pipe[..i] == s.pipe[1..i + 1];
      FirstName(s.st.lo.name, it, t.pipe[..i]);
      assert [it] + t.pipe[..i] == s.pipe[..i + 1];
      assert Written(t) + t.pipe[..i + 1] == Written(s) + s.pipe[..i + 2];
      assert LineGood(s, Written(s) + s.pipe[..i + 2], NameAfter(CurrentName(s), s.pipe[..i + 1]), s.pipe[i + 1].line);
    }
  }

  lemma WriteFlows(s: Sys, t: Sys)
    requires s.pending == None && s.pipe != []
    requires t == s.(cache := s.cache + [s.pipe[0]], pipe := s.pipe[1..], pending := Some(s.pipe[0]))
    ensures Flows(s, t) && Written(t) == Written(s) + s.pipe[..1] && s.pipe == [s.pipe[0]] + t.pipe
    ensures NameAfter(CurrentName(s), s.pipe[..0]) == CurrentName(s) == s.st.lo.name
    ensures CurrentName(t) == NameAfter(s.st.lo.name, [s.pipe[0]])
  {
    assert s.pipe == [s.pipe[0]] + t.pipe;
    assert Stream(t) == Stream(s);
    assert s.pipe[..0] == [];
  }

  lemma FirstName(name: nat, it: Item, more: seq<Item>)
    ensures NameAfter(NameAfter(name, [it]), more) == NameAfter(name, [it] + more)
  {
    NameAfterConcat(name, [it], more);
  }

  /** A step that changes neither logs nor origin and takes nothing out of the flow. */
  ghost predicate Flows(s: Sys, t: Sys) {
    s.logs == t.logs && s.origin == t.origin && s.cut == t.cut && Flow(s) <= Flow(t)
  }

  lemma SameLogs(s: Sys, t: Sys)
    requires Flows(s, t)
    ensures forall w, c | GoodIn(s, w, c) :: GoodIn(t, w, c)
    ensures forall w, c | GoodOpt(s, w, c) :: GoodOpt(t, w, c)
    ensures forall w, name, line | LineGood(s, w, name, line) :: LineGood(t, w, name, line)
  {
    forall w, c | GoodIn(s, w, c) ensures GoodIn(t, w, c) {
      GoodGrows(s.logs, s.origin.value, Flow(s), s.cut, Flow(t), s.cut, c);
    }
    hide GoodIn;
  }

  lemma FlushStep(cfg: Config, s: Sys, n: nat)
    requires Inv(cfg, s) && Enabled(cfg, s, FlushSome(n))
    ensures Inv(cfg, Apply(cfg, s, FlushSome(n)))
  {
    hide Good, LogsOk, LineGood, GoodIn, CoveredUpTo, PartlyPrinted;
    var t := Apply(cfg, s, FlushSome(n));
    assert s.cache == s.cache[..n] + s.cache[n..];
    assert Written(t) == Written(s);
    SameLogs(s, t);
    if cfg.flush {
      PositionsGrow(s, s.disk, t.disk, s.st.sh.xai);
    }
  }

  /** Acting on a line moves positions only to where they were, or to what the line announces. */
  lemma HandlePositions(s: Sys, line: Line<nat>)
    requires LineGood(s, Written(s), s.st.lo.name, line)
    requires GoodOpt(s, Written(s), s.st.sh.seqn)
    requires GoodOpt(s, Written(s), s.st.sh.inProgress)
    requires GoodOpt(s, Written(s), s.st.sh.xai)
    ensures var sh := Listen(s.st, line).sh;
      GoodOpt(s, Written(s), sh.seqn) && GoodOpt(s, Written(s), sh.inProgress) && GoodOpt(s, Written(s), sh.xai)
  {
    hide GoodIn, Good;
  }

  lemma HandleName(st: State<nat>, it: Item)
    ensures Listen(st, it.line).lo.name == NameAfter(st.lo.name, [it])
  {
    assert [it][..0] == [];
  }

  lemma HandleKnown(s: Sys)
    requires ProgressKnown(s) && s.pending.Some?
    ensures ProgressKnown(s.(pending := None, st := Listen(s.st, s.pending.value.line)))
  {
    var sh, sh' := s.st.sh, Listen(s.st, s.pending.value.line).sh;
    if sh'.inProgress == None {
      assert sh.inProgress == None && s.pending.value.line.First?;
    }
  }

  lemma HandleStep(cfg: Config, s: Sys)
    requires Inv(cfg, s) && Enabled(cfg, s, Handle)
    ensures Inv(cfg, Apply(cfg, s, Handle))
  {
    hide Good, LogsOk, LineGood, GoodIn, CoveredUpTo, PartlyPrinted, Listen, ProgressKnown, GoodOpt;
    var t := Apply(cfg, s, Handle);
    HandlePositions(s, s.pending.value.line);
    HandleName(s.st, s.pending.value);
    HandleKnown(s);
    assert CurrentName(t) == CurrentName(s);
    SameLogs(s, t);
    if cfg.flush {
      assert s.disk + [] == s.disk;
    }
    SavingStays(s);
  }

  lemma SavingStays(s: Sys)
    requires MainGood(s) && s.pending.Some?
    ensures !s.main.SavingStart?
  {
  }

  // ----- the main thread

  lemma SendStream(s: Sys, it: Item)
    ensures Stream(Send(s, it)) == Stream(s) + [it]
    ensures NameAfter(CurrentName(s), s.pipe + [it]) == NameAfter(NameAfter(CurrentName(s), s.pipe), [it])
  {
    assert Written(s) + (s.pipe + [it]) == Stream(s) + [it];
    NameAfterConcat(CurrentName(s), s.pipe, [it]);
  }

  /** Printing one line into the pipe. */
  lemma SendKeeps(s: Sys, it: Item, m: Main)
    requires PipeGood(s) && PendingGood(s) && LineGood(s, Stream(s) + [it], NameAfter(CurrentName(s), s.pipe), it.line)
    requires Flow(s) <= Flow(Send(s, it).(main := m))
    ensures PipeGood(Send(s, it).(main := m)) && PendingGood(Send(s, it).(main := m))
  {
    hide LineGood, GoodIn;
    var t := Send(s, it).(main := m);
    SendStream(s, it);
    SameLogs(s, t);
    forall i | 0 <= i < |t.pipe|
      ensures LineGood(t, Written(t) + t.pipe[..i + 1], NameAfter(CurrentName(t), t.pipe[..i]), t.pipe[i].line)
    {
      assert t.pipe[..i] == s.pipe[..i];
      if i < |s.pipe| {
        assert t.pipe[..i + 1] == s.pipe[..i + 1];
      } else {
        assert t.pipe[..i + 1] == t.pipe && s.pipe[..i] == s.pipe;
        assert Written(t) + t.pipe == Stream(s) + [it];
      }
    }
  }

  /** A step of the main thread that prints nothing and leaves the listener's line alone. */
  lemma QuietStep(s: Sys, sh: Shared<nat>, m: Main)
    requires PendingGood(s) && PipeGood(s) && Flow(s) <= Flow(SetShared(s, sh).(main := m))
    ensures var t := SetShared(s, sh).(main := m); PendingGood(t) && PipeGood(t)
  {
    hide LineGood, GoodIn;
    var t := SetShared(s, sh).(main := m);
    assert CurrentName(t) == CurrentName(s);
    SameLogs(s, t);
  }

  lemma ChooseStartStep(cfg: Config, s: Sys, c: Checkpoint<nat>)
    requires Inv(cfg, s) && Enabled(cfg, s, ChooseStart(c))
    ensures Inv(cfg, Apply(cfg, s, ChooseStart(c)))
  {
    var t := Apply(cfg, s, ChooseStart(c));
    var k: nat :| BoundaryAt(s.logs[c.name], k, c.pos);
    forall j, m | 0 <= j < |s.logs| && 0 <= m < |s.logs[j]| && (j < c.name || (j == c.name && m < k))
      ensures Before(j, s.logs[j][m].start, c)
    {
      if j == c.name {
        OffsetsIncrease(s.logs[j], m + 1, k);
        assert EventOk(s.logs[j], m);
      }
    }
    assert GoodAt(s.logs, c, [], {}, c, k);
    GoodGrows(s.logs, c, [], {}, [], t.cut + {PlaceOf(c)}, c);
    GoodGrows(s.logs, c, [], {}, Flow(t), t.cut, c);
    GoodInGrows(t, [], Written(t), c);
  }

  lemma MainQuietStep(cfg: Config, s: Sys, a: Action)
    requires Inv(cfg, s) && Enabled(cfg, s, a)
    requires a.SaveStart? || a.Load? || a.ClearRange? || a.NameFirst? || a.SetProgress? || a.NameLast?
      || a.WaitSignalled? || a.WaitOther?
    ensures Inv(cfg, Apply(cfg, s, a))
  {
    hide Good, LogsOk, LineGood, CoveredUpTo, PartlyPrinted, PipeGood, PendingGood;
    var t := Apply(cfg, s, a);
    QuietStep(s, t.st.sh, t.main);
    SameLogs(s, t);
    match a
    case SaveStart =>
      var c := s.st.sh.seqn.value;
      GoodInGrows(s, [], s.disk, c);
    case Load => SameOffset(s, Written(s), s.st.sh.seqn.value, Checkpoint(t.main.i, t.main.pos, 0));
    case SetProgress => GoodInGrows(s, Written(s), Stream(s), Checkpoint(s.main.i, s.main.pos, 0));
    case _ =>
  }

  lemma SameOffset(s: Sys, w: seq<Item>, c: Checkpoint<nat>, d: Checkpoint<nat>)
    requires GoodIn(s, w, c) && c.name == d.name && c.pos == d.pos
    ensures GoodIn(s, w, d)
  {
    var k: nat :| GoodAt(s.logs, s.origin.value, w, s.cut + {PlaceOf(c)}, c, k);
    assert GoodAt(s.logs, s.origin.value, w, s.cut + {PlaceOf(d)}, d, k);
    k :| GoodAt(s.logs, s.origin.value, Flow(s), s.cut, c, k);
    assert GoodAt(s.logs, s.origin.value, Flow(s), s.cut, d, k);
  }

  lemma AnnounceStep(cfg: Config, s: Sys, a: Action)
    requires Inv(cfg, s) && Enabled(cfg, s, a) && (a.Announce? || a.AnnounceLast?)
    ensures Inv(cfg, Apply(cfg, s, a))
  {
    hide Good, LogsOk, GoodIn, CoveredUpTo, PartlyPrinted, PipeGood, NameAfter;
    var it := Note(if a.Announce? then First(s.main.i) else Last);
    var t := Apply(cfg, s, a);
    SendStream(s, it);
    SendKeeps(s, it, t.main);
    SameLogs(s, t);
  }

  /** The name of the file at the end of the pipe changes with Start and First only. */
  lemma NameStays(name: nat, it: Item)
    requires !it.line.Start? && !it.line.First?
    ensures NameAfter(name, [it]) == name
  {
    assert [it][..0] == [];
  }

  /** What a step of the main thread that prints `it` leaves to show: the line, and the new place. */
  lemma PrintStep(cfg: Config, s: Sys, it: Item, m: Main)
    requires Inv(cfg, s) && s.st.sh.inProgress.Some? && s.st.sh.seqn.Some?
    requires LineGood(s, Stream(s) + [it], NameAfter(CurrentName(s), s.pipe), it.line)
    requires Flow(s) <= Flow(Send(s, it).(main := m)) && MainGood(Send(s, it).(main := m))
    ensures Inv(cfg, Send(s, it).(main := m))
  {
    hide Good, LogsOk, GoodIn, GoodOpt, CoveredUpTo, PartlyPrinted, PipeGood, NameAfter, LineGood, MainGood;
    SendKeeps(s, it, m);
    SameLogs(s, Send(s, it).(main := m));
  }

  /** Coverage in the flow and in `w` up to an event outside any transaction. */
  lemma GoodFrom(s: Sys, w: seq<Item>, i: nat, k: nat)
    requires s.origin.Some? && i < |s.logs| && k <= |s.logs[i]| && !InGroup(s.logs[i], k)
    requires CoveredUpTo(s.logs, s.origin.value, w, s.cut, i, k)
    requires CoveredUpTo(s.logs, s.origin.value, Flow(s), s.cut, i, k)
    ensures GoodIn(s, w, Checkpoint(i, Offset(s.logs[i], k), 0))
  {
    var c := Checkpoint(i, Offset(s.logs[i], k), 0);
    assert GoodAt(s.logs, s.origin.value, w, s.cut, c, k);
    GoodGrows(s.logs, s.origin.value, w, s.cut, w, s.cut + {PlaceOf(c)}, c);
    assert GoodAt(s.logs, s.origin.value, Flow(s), s.cut, c, k);
  }

  /** Coverage up to some event of a file is coverage up to its header. */
  lemma GoodFromHeader(s: Sys, w: seq<Item>, i: nat, k: nat)
    requires s.origin.Some? && i < |s.logs| && k <= |s.logs[i]| && w <= Flow(s)
    requires CoveredUpTo(s.logs, s.origin.value, w, s.cut, i, k)
    ensures GoodIn(s, w, Checkpoint(i, BIN_LOG_HEADER_SIZE, 0))
  {
    CoverageGrows(s.logs, s.origin.value, w, s.cut, Flow(s), s.cut, i, k);
    GoodFrom(s, w, i, 0);
  }

  /** A good position fixes where in the file the reader starts. */
  lemma GoodFixesEvent(s: Sys, w: seq<Item>, c: Checkpoint<nat>, k: nat)
    requires LogsOk(s.logs) && GoodIn(s, w, c) && k <= |s.logs[c.name]| && Offset(s.logs[c.name], k) == c.pos
    ensures CoveredUpTo(s.logs, s.origin.value, Flow(s), s.cut, c.name, k)
  {
    var k': nat :| GoodAt(s.logs, s.origin.value, Flow(s), s.cut, c, k');
    if k < k' {
      OffsetsIncrease(s.logs[c.name], k, k');
    } else {
      OffsetsIncrease(s.logs[c.name], k', k);
    }
  }

  lemma OpenStep(cfg: Config, s: Sys, k: nat)
    requires Inv(cfg, s) && Enabled(cfg, s, Open(k))
    ensures Inv(cfg, Apply(cfg, s, Open(k)))
  {
    hide Good, LogsOk, GoodIn, GoodOpt, CoveredUpTo, PartlyPrinted, PipeGood, PendingGood;
    var m := s.main;
    var it := Note(Start(m.i));
    GoodFixesEvent(s, Stream(s), Checkpoint(m.i, m.pos, 0), k);
    GoodHasOrigin(s, Stream(s), Checkpoint(m.i, m.pos, 0));
    assert Flow(s) == Stream(s);
    GoodFromHeader(s, Stream(s), m.i, k);
    GoodInGrows(s, Stream(s), Stream(s) + [it], Checkpoint(m.i, BIN_LOG_HEADER_SIZE, 0));
    CoverageGrows(s.logs, s.origin.value, Stream(s), s.cut, Stream(s) + [it], s.cut, m.i, k);
    SendStream(s, it);
    assert [it][..0] == [];
    PrintStep(cfg, s, it, Reading(m.n, m.i, k, []));
  }

  lemma GoodHasOrigin(s: Sys, w: seq<Item>, c: Checkpoint<nat>)
    requires GoodIn(s, w, c)
    ensures s.origin.Some?
  {
  }

  lemma ChatStep(cfg: Config, s: Sys, line: Line<nat>)
    requires Inv(cfg, s) && Enabled(cfg, s, Chat(line))
    ensures Inv(cfg, Apply(cfg, s, Chat(line)))
  {
    hide Good, LogsOk, GoodIn, GoodOpt, CoveredUpTo, PartlyPrinted, PipeGood, PendingGood, NameAfter;
    var it := Note(line);
    SendStream(s, it);
    NameStays(s.main.i, it);
    CoverageGrows(s.logs, s.origin.value, Stream(s), s.cut, Stream(s) + [it], s.cut, s.main.i, s.main.k);
    PrintStep(cfg, s, it, s.main);
  }

  lemma CloseFileStep(cfg: Config, s: Sys)
    requires Inv(cfg, s) && Enabled(cfg, s, CloseFile)
    ensures Inv(cfg, Apply(cfg, s, CloseFile))
  {
    hide Good, LogsOk, GoodIn, GoodOpt, PartlyPrinted, PipeGood, PendingGood, NameAfter, CoveredUpTo;
    var m, it := s.main, Note(End);
    var t := Apply(cfg, s, CloseFile);
    SendStream(s, it);
    assert Stream(t) == Stream(s) + [it] && Flow(t) == Stream(t);
    if m.i + 1 < m.n {
      CoverageGrows(s.logs, s.origin.value, Stream(s), s.cut, Stream(t), t.cut, m.i, m.k);
      FileCovered(s.logs, s.origin.value, Stream(t), t.cut, m.i);
      GoodFromHeader(t, Stream(t), m.i + 1, 0);
    }
    PrintStep(cfg, s, it, t.main);
  }

  lemma FileCovered(logs: seq<seq<Event>>, origin: Checkpoint<nat>, w: seq<Item>, cut: set<Place>, i: nat)
    requires i < |logs| && CoveredUpTo(logs, origin, w, cut, i, |logs[i]|)
    ensures CoveredUpTo(logs, origin, w, cut, i + 1, 0)
  {
  }

  // ----- printing an event

  lemma BlockAtEnd(w: seq<Item>, b: seq<Item>)
    requires |b| <= |w| && w[|w| - |b|..] == b
    ensures Block(w, b)
  {
    assert At(w, b, |w| - |b|);
  }

  /** Once an event is printed, it is covered. */
  lemma EventPrinted(s: Sys, w: seq<Item>, cut: set<Place>, i: nat, k: nat)
    requires s.origin.Some? && i < |s.logs| && 0 < k <= |s.logs[i]|
    requires CoveredUpTo(s.logs, s.origin.value, w, cut, i, k - 1)
    requires EventIn(w, cut, s.logs[i][k - 1], i, k - 1)
    ensures CoveredUpTo(s.logs, s.origin.value, w, cut, i, k)
  {
  }

  lemma NextEventStep(cfg: Config, s: Sys)
    requires Inv(cfg, s) && Enabled(cfg, s, NextEvent)
    ensures Inv(cfg, Apply(cfg, s, NextEvent))
  {
    hide Good, LogsOk, GoodIn, GoodOpt, PipeGood, PendingGood, CoveredUpTo, NameAfter, Printed;
    var t, m := Apply(cfg, s, NextEvent), s.main;
    QuietStep(s, s.st.sh, t.main);
    SameLogs(s, t);
    if t.main.rest == [] {
      BlockAtEnd(Stream(s), []);
      EventPrinted(s, Stream(s), s.cut, m.i, m.k + 1);
    } else {
      assert PartlyPrinted(Stream(t), Printed(s.logs[m.i][m.k], m.i, m.k), t.main.rest);
    }
  }

  /** The lines of event `k - 1` of the file being read, of which the next one goes out. */
  ghost predicate Emitting(s: Sys) {
    && LogsOk(s.logs) && s.origin.Some? && s.main.Reading? && s.main.rest != []
    && s.main.i < |s.logs| && 0 < s.main.k <= |s.logs[s.main.i]| && Current(s).end <= LONG_MAX
    && CoveredUpTo(s.logs, s.origin.value, Stream(s), s.cut, s.main.i, s.main.k - 1)
    && PartlyPrinted(Stream(s), Printed(Current(s), s.main.i, s.main.k - 1), s.main.rest)
  }

  function Current(s: Sys): Event
    requires s.main.Reading? && s.main.i < |s.logs| && 0 < s.main.k <= |s.logs[s.main.i]|
  {
    s.logs[s.main.i][s.main.k - 1]
  }

  /** One more line of an event: still a part of it, or all of it. */
  lemma PrintedOneMore(w: seq<Item>, all: seq<Item>, rest: seq<Item>)
    requires rest != [] && PartlyPrinted(w, all, rest)
    ensures PartlyPrinted(w + [rest[0]], all, rest[1..])
    ensures |rest| <= |all| && rest[0] == all[|all| - |rest|]
    ensures |rest| == |all| ==> Block(w + [rest[0]], all[..1])
    ensures |rest| == 1 ==> Block(w + [rest[0]], all)
  {
    var n := |all| - |rest|;
    var w' := w + [rest[0]];
    assert w'[|w'| - (n + 1)..] == w[|w| - n..] + [rest[0]];
    assert all[..n + 1] == all[..n] + [rest[0]];
    if n == 0 {
      BlockAtEnd(w', all[..1]);
    }
    if |rest| == 1 {
      assert all[..n + 1] == all;
      BlockAtEnd(w', all);
    }
  }

  /** What is still to be printed of an event completes it in the flow. */
  lemma FlowCovers(s: Sys)
    requires Emitting(s)
    ensures CoveredUpTo(s.logs, s.origin.value, Flow(s), s.cut, s.main.i, s.main.k)
  {
    hide CoveredUpTo, LogsOk, Printed;
    var m := s.main;
    var all := Printed(Current(s), m.i, m.k - 1);
    assert Flow(s)[|Flow(s)| - |all|..] == all by {
      var n := |all| - |m.rest|;
      assert all == all[..n] + m.rest;
      assert Flow(s)[|Flow(s)| - |all|..] == Stream(s)[|Stream(s)| - n..] + m.rest;
    }
    BlockAtEnd(Flow(s), all);
    CoverageGrows(s.logs, s.origin.value, Stream(s), s.cut, Flow(s), s.cut, m.i, m.k - 1);
    EventPrinted(s, Flow(s), s.cut, m.i, m.k);
  }

  /** The marker of a closing event makes its end a good position: the text is on its way. */
  lemma ClosingMarker(s: Sys)
    requires Emitting(s) && Closing(Current(s))
    requires |s.main.rest| == |Printed(Current(s), s.main.i, s.main.k - 1)|
    ensures GoodIn(s, Stream(s) + [s.main.rest[0]], Checkpoint(s.main.i, Current(s).end, 0))
  {
    hide CoveredUpTo, LogsOk, PartlyPrinted, Printed;
    var m, e, w := s.main, Current(s), Stream(s) + [s.main.rest[0]];
    var c := Checkpoint(m.i, e.end, 0);
    var cut := s.cut + {PlaceOf(c)};
    PrintedOneMore(Stream(s), Printed(e, m.i, m.k - 1), m.rest);
    CoverageGrows(s.logs, s.origin.value, Stream(s), s.cut, w, cut, m.i, m.k - 1);
    assert EventIn(w, cut, e, m.i, m.k - 1);
    EventPrinted(s, w, cut, m.i, m.k);
    assert GoodAt(s.logs, s.origin.value, w, cut, c, m.k);
    FlowCovers(s);
    assert GoodAt(s.logs, s.origin.value, Flow(s), s.cut, c, m.k);
  }

  lemma EmitLineGood(s: Sys)
    requires Emitting(s)
    ensures LineGood(s, Stream(s) + [s.main.rest[0]], s.main.i, s.main.rest[0].line)
    ensures !s.main.rest[0].line.Start? && !s.main.rest[0].line.First?
  {
    hide CoveredUpTo, PartlyPrinted, GoodIn;
    var m, e, w := s.main, Current(s), Stream(s) + [s.main.rest[0]];
    var all := Printed(e, m.i, m.k - 1);
    PrintedOneMore(Stream(s), all, m.rest);
    assert EventOk(s.logs[m.i], m.k - 1);
    if |m.rest| < |all| || MarkerOf(e) == [] {
      assert m.rest[0].line == e.text[|all| - |m.rest| - |MarkerOf(e)|];
    } else if e.kind.Gtid? {
      CoverageGrows(s.logs, s.origin.value, Stream(s), s.cut, w, s.cut, m.i, m.k - 1);
      CoverageGrows(s.logs, s.origin.value, Stream(s), s.cut, Flow(s), s.cut, m.i, m.k - 1);
      GoodFrom(s, w, m.i, m.k - 1);
    } else if Closing(e) {
      ClosingMarker(s);
    }
  }

  /** When the last line of an event is out, the event is covered. */
  lemma LastLineCovers(s: Sys)
    requires Emitting(s) && |s.main.rest| == 1
    ensures CoveredUpTo(s.logs, s.origin.value, Stream(s) + [s.main.rest[0]], s.cut, s.main.i, s.main.k)
  {
    hide CoveredUpTo, LogsOk, PartlyPrinted;
    var m, w := s.main, Stream(s) + [s.main.rest[0]];
    PrintedOneMore(Stream(s), Printed(Current(s), m.i, m.k - 1), m.rest);
    CoverageGrows(s.logs, s.origin.value, Stream(s), s.cut, w, s.cut, m.i, m.k - 1);
    EventPrinted(s, w, s.cut, m.i, m.k);
  }

  lemma EmitStep(cfg: Config, s: Sys)
    requires cfg.offsetsFit && Inv(cfg, s) && Enabled(cfg, s, Emit)
    ensures Inv(cfg, Apply(cfg, s, Emit))
  {
    hide Good, LogsOk, GoodIn, GoodOpt, PipeGood, PendingGood, CoveredUpTo, PartlyPrinted, NameAfter, LineGood, Printed;
    var m, it := s.main, s.main.rest[0];
    var w, t := Stream(s) + [it], Apply(cfg, s, Emit);
    EmitLineGood(s);
    SendStream(s, it);
    NameStays(m.i, it);
    PrintedOneMore(Stream(s), Printed(Current(s), m.i, m.k - 1), m.rest);
    if |m.rest| == 1 {
      LastLineCovers(s);
    } else {
      CoverageGrows(s.logs, s.origin.value, Stream(s), s.cut, w, s.cut, m.i, m.k - 1);
    }
    assert Flow(t) == Flow(s) by {
      assert m.rest == [it] + m.rest[1..];
    }
    PrintStep(cfg, s, it, m.(rest := m.rest[1..]));
  }

  // ----- crashes, and the theorem

  lemma CrashStep(cfg: Config, s: Sys, lo: Local<nat>)
    requires cfg.flush && Inv(cfg, s) && Enabled(cfg, s, Crash(lo))
    ensures Inv(cfg, Apply(cfg, s, Crash(lo)))
  {
    hide Good, LogsOk, LineGood, CoveredUpTo, PartlyPrinted;
    var t := Apply(cfg, s, Crash(lo));
    assert Written(t) == s.disk && Flow(t) == s.disk;
    if s.st.sh.xai.Some? {
      var c := s.st.sh.xai.value;
      assert s.cut + {PlaceOf(c)} == t.cut && t.cut + {PlaceOf(c)} == t.cut;
    }
  }

  lemma StepKeepsInv(cfg: Config, s: Sys, a: Action)
    requires cfg.Careful() && Inv(cfg, s) && Enabled(cfg, s, a)
    ensures Inv(cfg, Apply(cfg, s, a))
  {
    hide Inv, LogsOk;
    match a
    case Append(e) =>
      LogsAreOk(cfg, s);
      AppendGrows(s.logs, e);
      AppendAllowed(cfg, s.logs, e);
      ServerStep(cfg, s, Apply(cfg, s, a).logs);
    case NewFile =>
      LogsAreOk(cfg, s);
      NewFileGrows(s.logs);
      NewFileAllowed(cfg, s.logs);
      ServerStep(cfg, s, Apply(cfg, s, a).logs);
    case Write => WriteStep(cfg, s);
    case FlushSome(n) => FlushStep(cfg, s, n);
    case Handle => HandleStep(cfg, s);
    case ChooseStart(c) => ChooseStartStep(cfg, s, c);
    case Announce => AnnounceStep(cfg, s, a);
    case AnnounceLast => AnnounceStep(cfg, s, a);
    case Open(k) => OpenStep(cfg, s, k);
    case Chat(line) => ChatStep(cfg, s, line);
    case NextEvent => NextEventStep(cfg, s);
    case Emit => EmitStep(cfg, s);
    case CloseFile => CloseFileStep(cfg, s);
    case Drop =>
    case FailFile =>
    case Crash(lo) => CrashStep(cfg, s, lo);
    case _ => MainQuietStep(cfg, s, a);
  }

  lemma LogsAreOk(cfg: Config, s: Sys)
    requires Inv(cfg, s)
    ensures LogsOk(s.logs) && EventsAllowed(cfg, s.logs)
  {
  }

  lemma InitInv(cfg: Config, s: Sys)
    requires Init(cfg, s)
    ensures Inv(cfg, s)
  {
  }

  lemma {:induction false} RunKeepsInv(cfg: Config, s: Sys, acts: seq<Action>)
    requires cfg.Careful() && Init(cfg, s) && Run(cfg, s, acts).Some?
    ensures Inv(cfg, Run(cfg, s, acts).value)
    decreases |acts|
  {
    hide Inv, Init, Enabled, Apply;
    if acts == [] {
      InitInv(cfg, s);
    } else {
      RunKeepsInv(cfg, s, acts[..|acts| - 1]);
      StepKeepsInv(cfg, Run(cfg, s, acts[..|acts| - 1]).value, acts[|acts| - 1]);
    }
  }

  lemma GoodIsKept(s: Sys, w: seq<Item>, c: Option<Checkpoint<nat>>)
    requires LogsOk(s.logs) && GoodOpt(s, w, c)
    ensures Kept(s, w, s.cut + PlacesOf(c), c)
  {
    if c.Some? {
      var cut := s.cut + PlacesOf(c);
      assert cut == s.cut + {PlaceOf(c.value)};
      var k: nat :| GoodAt(s.logs, s.origin.value, w, cut, c.value, k);
      assert BoundaryAt(s.logs[c.value.name], k, c.value.pos);
      forall j, m | 0 <= j < |s.logs| && 0 <= m < |s.logs[j]| && Before(j, s.logs[j][m].start, c.value)
                    && !Before(j, s.logs[j][m].start, s.origin.value)
        ensures EventIn(w, cut, s.logs[j][m], j, m)
      {
        GoodMeansCovered(s.logs, s.origin.value, w, cut, c.value, j, m);
      }
    }
  }

  /** The process died during the run with its record at this place. */
  ghost predicate DiedAt(cfg: Config, s: Sys, acts: seq<Action>, p: Place) {
    exists n: nat :: DiedAtStep(cfg, s, acts, p, n)
  }

  ghost predicate DiedAtStep(cfg: Config, s: Sys, acts: seq<Action>, p: Place, n: nat) {
    && n < |acts| && acts[n].Crash? && Run(cfg, s, acts[..n]).Some?
    && p in PlacesOf(Run(cfg, s, acts[..n]).value.st.sh.xai)
  }

  /** Nothing is cut off but where the process died. */
  lemma {:induction false} CutWhereDied(cfg: Config, s: Sys, acts: seq<Action>)
    requires Init(cfg, s) && Run(cfg, s, acts).Some?
    ensures forall p | p in Run(cfg, s, acts).value.cut :: DiedAt(cfg, s, acts, p)
    decreases |acts|
  {
    if acts != [] {
      var n := |acts| - 1;
      var u := Run(cfg, s, acts[..n]).value;
      CutWhereDied(cfg, s, acts[..n]);
      forall p | p in Run(cfg, s, acts).value.cut ensures DiedAt(cfg, s, acts, p) {
        if p in u.cut {
          assert DiedAt(cfg, s, acts[..n], p);
          var i: nat :| DiedAtStep(cfg, s, acts[..n], p, i);
          assert acts[..n][..i] == acts[..i];
          assert DiedAtStep(cfg, s, acts, p, i);
        } else {
          CutGrows(cfg, u, acts[n]);
          assert DiedAtStep(cfg, s, acts, p, n);
        }
      }
    }
  }

  lemma CutGrows(cfg: Config, s: Sys, a: Action)
    requires Enabled(cfg, s, a)
    ensures Apply(cfg, s, a).cut == s.cut + if a.Crash? then PlacesOf(s.st.sh.xai) else {}
  {
  }

  /**
   * Over every run, with crashes and restarts anywhere: every position held in memory, and the
   * record on disk, lies between transactions and everything before it has been captured. Only the
   * text of a closing event may be missing, if the event ends at the position itself or ended at the
   * record when the process died.
   */
  lemma CaptureIsAtLeastOnce(cfg: Config, s: Sys, acts: seq<Action>)
    requires cfg.Careful() && Init(cfg, s) && Run(cfg, s, acts).Some?
    ensures var t := Run(cfg, s, acts).value;
      AtLeastOnce(t) && forall p | p in t.cut :: DiedAt(cfg, s, acts, p)
  {
    hide Kept, Inv, Init;
    var t := Run(cfg, s, acts).value;
    RunKeepsInv(cfg, s, acts);
    PositionsAreGood(cfg, t);
    GoodIsKept(t, Written(t), t.st.sh.seqn);
    GoodIsKept(t, Written(t), t.st.sh.inProgress);
    GoodIsKept(t, t.disk, t.st.sh.xai);
    CutWhereDied(cfg, s, acts);
  }

  lemma PositionsAreGood(cfg: Config, s: Sys)
    requires Inv(cfg, s)
    ensures LogsOk(s.logs) && PositionsGood(cfg, s)
  {
  }

  /**
   * As long as the process has not died, every event before a held position is whole, except
   * perhaps a closing event that ends at the position.
   */
  lemma WholeUntilItDies(cfg: Config, s: Sys, acts: seq<Action>)
    requires cfg.Careful() && Init(cfg, s) && Run(cfg, s, acts).Some?
    requires forall n :: 0 <= n < |acts| ==> !acts[n].Crash?
    ensures var t := Run(cfg, s, acts).value; var sh := t.st.sh;
      && Kept(t, Written(t), PlacesOf(sh.seqn), sh.seqn)
      && Kept(t, Written(t), PlacesOf(sh.inProgress), sh.inProgress)
      && Kept(t, t.disk, PlacesOf(sh.xai), sh.xai)
  {
    hide Kept, Init, Run;
    CaptureIsAtLeastOnce(cfg, s, acts);
    var t := Run(cfg, s, acts).value;
    NeverDied(cfg, s, acts);
    assert t.cut == {};
    forall c ensures t.cut + PlacesOf(c) == PlacesOf(c) {
    }
  }

  lemma NeverDied(cfg: Config, s: Sys, acts: seq<Action>)
    requires forall n :: 0 <= n < |acts| ==> !acts[n].Crash?
    ensures forall p :: !DiedAt(cfg, s, acts, p)
  {
  }

  // ----- when no closing event has text

  /** Without text after the marker, a closing event is whole as soon as its marker is there. */
  lemma KeptIsWhole(cfg: Config, s: Sys, w: seq<Item>, cut: set<Place>, c: Option<Checkpoint<nat>>)
    requires !cfg.closingText && EventsAllowed(cfg, s.logs) && Kept(s, w, cut, c)
    ensures Kept(s, w, {}, c)
  {
    if c.Some? {
      forall j, m | 0 <= j < |s.logs| && 0 <= m < |s.logs[j]| && Before(j, s.logs[j][m].start, c.value)
                    && !Before(j, s.logs[j][m].start, s.origin.value)
        ensures EventIn(w, {}, s.logs[j][m], j, m)
      {
        assert EventIn(w, cut, s.logs[j][m], j, m) && EventAllowed(cfg, s.logs[j][m]);
        var b := Printed(s.logs[j][m], j, m);
        assert Closing(s.logs[j][m]) ==> b[..1] == b;
      }
    }
  }

  lemma CaptureIsWhole(cfg: Config, s: Sys, acts: seq<Action>)
    requires cfg.Careful() && !cfg.closingText && Init(cfg, s) && Run(cfg, s, acts).Some?
    ensures Whole(Run(cfg, s, acts).value)
  {
    hide Kept, Init, Run, Inv;
    CaptureIsAtLeastOnce(cfg, s, acts);
    RunKeepsInv(cfg, s, acts);
    LogsAreOk(cfg, Run(cfg, s, acts).value);
    var t := Run(cfg, s, acts).value;
    KeptIsWhole(cfg, t, Written(t), t.cut + PlacesOf(t.st.sh.seqn), t.st.sh.seqn);
    KeptIsWhole(cfg, t, Written(t), t.cut + PlacesOf(t.st.sh.inProgress), t.st.sh.inProgress);
    KeptIsWhole(cfg, t, t.disk, t.cut + PlacesOf(t.st.sh.xai), t.st.sh.xai);
  }

  /** Whole events are more than at-least-once capture asks for. */
  lemma WholeIsMore(s: Sys)
    requires Whole(s)
    ensures AtLeastOnce(s)
  {
    KeptGrows(s, Written(s), s.cut + PlacesOf(s.st.sh.seqn), s.st.sh.seqn);
    KeptGrows(s, Written(s), s.cut + PlacesOf(s.st.sh.inProgress), s.st.sh.inProgress);
    KeptGrows(s, s.disk, s.cut + PlacesOf(s.st.sh.xai), s.st.sh.xai);
  }

  lemma KeptGrows(s: Sys, w: seq<Item>, cut: set<Place>, c: Option<Checkpoint<nat>>)
    requires Kept(s, w, {}, c)
    ensures Kept(s, w, cut, c)
  {
  }

  /** A round that starts from a covered position finds an event boundary there: reading never blocks. */
  lemma OpeningIsPossible(cfg: Config, s: Sys)
    requires Inv(cfg, s) && s.main.Opening?
    ensures exists k :: Enabled(cfg, s, Open(k))
  {
    var c := Checkpoint(s.main.i, s.main.pos, 0);
    var k: nat :| GoodAt(s.logs, s.origin.value, Flow(s), s.cut, c, k);
    assert Enabled(cfg, s, Open(k));
  }
}
