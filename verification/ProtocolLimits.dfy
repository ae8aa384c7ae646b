/**
 * What the guarantee rests on: without the flush, after a read that stops short, past the offsets a
 * long can hold, or when a line is too long for the buffer, capture is not at least once.
 */
module ProtocolLimits {
  import opened Bytes
  import opened Decimal
  import opened Markers
  import opened Listener
  import opened ServerLog
  import opened Protocol
  import opened ProtocolProof
  import opened Scenarios

  /** An event is missing, even its marker, from what carries none of its lines. */
  lemma EventMissing(w: seq<Item>, cut: set<Place>)
    requires Begun(0) !in w
    ensures !EventIn(w, cut, G, 0, 0)
  {
    var b := Printed(G, 0, 0);
    assert b[0] == Begun(0);
  }

  lemma NotKept(s: Sys, w: seq<Item>, cut: set<Place>, c: Checkpoint<nat>)
    requires s.logs != [] && s.logs[0] != [] && s.logs[0][0] == G && s.origin == Some(ORIGIN) && Before(0, 4, c)
    requires Begun(0) !in w
    ensures !Kept(s, w, cut, Some(c))
  {
    EventMissing(w, cut);
  }

  // ----- the flush and the reads

  /** The record is on disk, the transaction it is past is not. */
  lemma UnflushedCaptureLoses(cfg: Config) returns (acts: seq<Action>, t: Sys)
    requires !cfg.flush
    ensures Init(cfg, S0(Logs([]))) && Run(cfg, S0(Logs([])), acts) == Some(t) && !AtLeastOnce(t)
  {
    hide Run, Init, S0, Kept, Logs;
    LogsAllowed(cfg, []);
    FirstLog([]);
    acts, t := Committing(cfg, Logs([]), 20, []);
    NotKept(t, t.disk, t.cut + PlacesOf(t.st.sh.xai), Checkpoint(0, 20, 0));
  }

  lemma FirstLog(text: seq<Line<nat>>)
    ensures |Logs(text)| == 2 && Logs(text)[0] == Transaction(20, text) && Logs(text)[1] == Transaction(20, [])
  {
  }

  /**
   * A read that stops short of the first file's transaction. The reader goes on to the second file,
   * and its commit takes the record past the lost one: that is where the next process starts.
   */
  lemma ShortReadLoses(cfg: Config) returns (acts: seq<Action>, t: Sys)
    requires !cfg.readsHold
    ensures Init(cfg, S0(Logs([]))) && Run(cfg, S0(Logs([])), acts) == Some(t) && !AtLeastOnce(t)
    ensures t.main.Idle? && t.st.sh.seqn == t.st.sh.xai == Some(Checkpoint(1, 20, 0))
    ensures forall cut :: !EventIn(Written(t), cut, G, 0, 0)
  {
    hide Run, Init, S0, Kept, Listen, Logs;
    LogsAllowed(cfg, []);
    FirstLog([]);
    acts, t := SecondCommitted(cfg);
    var all := Written(t);
    acts, t := Restart(cfg, Logs([]), acts, t);
    assert Written(t) <= all;
    forall cut ensures !EventIn(Written(t), cut, G, 0, 0) {
      EventMissing(Written(t), cut);
    }
    NotKept(t, t.disk, t.cut + PlacesOf(t.st.sh.xai), Checkpoint(1, 20, 0));
  }

  lemma SecondCommitted(cfg: Config) returns (acts: seq<Action>, t: Sys)
    requires !cfg.readsHold
    ensures Reaches(cfg, S0(Logs([])), acts, t) && t.logs == Logs([]) && t.origin == Some(ORIGIN)
    ensures Written(t) == OPENING + [Note(End), Note(Start(1))] + [Begun(1), Committed(1, 20)]
    ensures t.st.sh.xai == Some(Checkpoint(1, 20, 0))
  {
    hide Reaches, S0, Listen, Logs;
    FirstLog([]);
    var s0 := S0(Logs([]));
    acts := FirstRound(cfg, Logs([]));
    t := Reader(Logs([]), 0, OPENING);
    acts, t := SecondFile(cfg, s0, acts, t);
    acts, t := PrintTransaction(cfg, s0, acts, t, 1, 20, []);
    OpeningHandled(t.st);
    acts, t := TakeTwo(cfg, s0, acts, t);
    SecondHandled(t.st);
    acts, t := TakeTwo(cfg, s0, acts, t);
    TransactionHandled(t.st, 4, 20);
    acts, t := TakeTwo(cfg, s0, acts, t);
    assert Written(t) == OPENING + [Note(End), Note(Start(1))] + [Begun(1), Committed(1, 20)];
  }

  lemma SecondHandled(st: State<nat>)
    requires !st.lo.data
    ensures var t := Listen(Listen(st, End), Start(1));
      t.lo.name == 1 && !t.lo.data && t.sh.first == st.sh.first && t.sh.last == st.sh.last && t.sh.xai == st.sh.xai
  {
  }

  lemma SecondFile(cfg: Config, s0: Sys, acts: seq<Action>, t: Sys) returns (acts': seq<Action>, t': Sys)
    requires Reaches(cfg, s0, acts, t) && t.main == Reading(2, 0, 0, []) && |t.logs| == 2 && !cfg.readsHold
    ensures Reaches(cfg, s0, acts', t')
    ensures t' == t.(main := Reading(2, 1, 0, []), pipe := t.pipe + [Note(End), Note(Start(1))])
  {
    hide Reaches;
    acts', t' := Extend(cfg, s0, acts, t, FailFile);
    acts', t' := Extend(cfg, s0, acts', t', Open(0));
    assert t'.pipe == t.pipe + [Note(End), Note(Start(1))];
  }

  /** The process ends, here or by dying, and a new one reads the record. */
  lemma Restart(cfg: Config, logs: seq<seq<Event>>, acts: seq<Action>, t: Sys) returns (acts': seq<Action>, t': Sys)
    requires Reaches(cfg, S0(logs), acts, t)
    ensures Reaches(cfg, S0(logs), acts', t') && t'.main.Idle? && Written(t') == t.disk && t'.disk == t.disk
    ensures t'.st.sh.seqn == t'.st.sh.xai == t.st.sh.xai && t'.logs == t.logs && t'.origin == t.origin
    ensures t'.pipe == []
  {
    hide Reaches, S0;
    acts', t' := Extend(cfg, S0(logs), acts, t, Crash(LO));
  }

  // ----- offsets that do not fit in a long

  const FAR: nat := LONG_MAX + 1

  /**
   * A commit that ends past what a long can hold. The progress and the record become the largest
   * long, which is no event's boundary: a round from there finds no event to start with.
   */
  lemma FarOffsetLoses(cfg: Config) returns (acts: seq<Action>, t: Sys)
    requires !cfg.offsetsFit
    ensures var logs := [Transaction(FAR, [])];
      Init(cfg, S0(logs)) && Run(cfg, S0(logs), acts) == Some(t) && !AtLeastOnce(t) && t.logs == logs
    ensures t.st.sh.xai == Some(Checkpoint(0, LONG_MAX, 0))
    ensures forall k: nat | k <= |t.logs[0]| :: Offset(t.logs[0], k) != LONG_MAX
  {
    var logs := [Transaction(FAR, [])];
    TransactionOk(FAR, []);
    assert EventsAllowed(cfg, logs);
    assert Init(cfg, S0(logs));
    NoBoundary();
    hide Run, Init, S0;
    acts, t := Committing(cfg, logs, FAR, []);
  }

  lemma NoBoundary()
    ensures forall k: nat | k <= 2 :: Offset(Transaction(FAR, []), k) != LONG_MAX
  {
    var log := Transaction(FAR, []);
    assert Offset(log, 0) == 4 && Offset(log, 1) == 10 && Offset(log, 2) == FAR;
  }

  // ----- lines that do not fit in the buffer

  const LONG_EVENT := Event(Other, 10, 20, "", [Text])
  const LAST_COMMIT := Event(Xid, 20, 30, "", [])
  const LONG_LOG: seq<Event> := [G, LONG_EVENT, LAST_COMMIT]
  const LONG_LINE := Item(Text, 0, 1)

  lemma LongLogAllowed(cfg: Config)
    ensures Init(cfg, S0([LONG_LOG]))
  {
    var log := LONG_LOG;
    assert !InGroup(log, 0) && InGroup(log, 1) && InGroup(log, 2) && !InGroup(log, 3);
    assert Offset(log, 1) == 10 && Offset(log, 2) == 20;
    assert EventOk(log, 0) && EventOk(log, 1) && EventOk(log, 2);
    assert EventsAllowed(cfg, [log]);
  }

  /** All lines of the log are in the pipe. */
  lemma LongLogPrinted(cfg: Config) returns (acts: seq<Action>)
    ensures Reaches(cfg, S0([LONG_LOG]), acts, Reader([LONG_LOG], 3, LONG_PIPE))
  {
    hide Reaches, S0;
    acts := FirstRound(cfg, [LONG_LOG]);
    var s0, t := S0([LONG_LOG]), Reader([LONG_LOG], 0, OPENING);
    assert Printed(G, 0, 0) == [Begun(0)] + [];
    assert Printed(LONG_EVENT, 0, 1) == [LONG_LINE] + [];
    assert Printed(LAST_COMMIT, 0, 2) == [LAST_MARKER] + [];
    acts, t := PrintOne(cfg, s0, acts, t, Begun(0), []);
    acts, t := PrintOne(cfg, s0, acts, t, LONG_LINE, []);
    acts, t := PrintOne(cfg, s0, acts, t, LAST_MARKER, []);
    assert t.pipe == LONG_PIPE;
  }

  const LAST_MARKER := Item(Commit(20, 30, ""), 0, 2)
  const LONG_PIPE: seq<Item> := OPENING + [Begun(0), LONG_LINE, LAST_MARKER]

  /** The next line overflows the buffer: its end alone is captured. */
  lemma DropNext(cfg: Config, s0: Sys, acts: seq<Action>, t: Sys) returns (acts': seq<Action>, t': Sys)
    requires Reaches(cfg, s0, acts, t) && Enabled(cfg, t, Drop)
    ensures Reaches(cfg, s0, acts', t')
    ensures t'.pipe == t.pipe[1..] && t'.pending == None && t'.st == Listen(t.st, Text)
    ensures t'.logs == t.logs && t'.origin == t.origin && Written(t') == Written(t) + [Note(Text)]
  {
    hide Reaches;
    acts', t' := Extend(cfg, s0, acts, t, Drop);
    assert Written(t') == Written(t) + [Note(Text)];
    if cfg.flush {
      acts', t' := Extend(cfg, s0, acts', t', FlushSome(|t'.cache|));
      assert t'.cache == [] && Written(t') == Written(t) + [Note(Text)];
    }
    acts', t' := Extend(cfg, s0, acts', t', Handle);
  }

  lemma LinesHandled(st: State<nat>)
    requires !st.lo.data && st.sh.first == Some(0)
    ensures var s3 := Listen(Listen(Listen(st, First(0)), Start(0)), Begin(4, 10, ""));
      && !s3.lo.data
      && Listen(Listen(s3, Text), Commit(20, 30, "")).sh.inProgress == Some(Checkpoint(0, 30, 0))
  {
  }

  lemma LongLineMissing(w: seq<Item>, cut: set<Place>)
    requires LONG_LINE !in w
    ensures !EventIn(w, cut, LONG_EVENT, 0, 1)
  {
    assert Printed(LONG_EVENT, 0, 1)[0] == LONG_LINE;
  }

  lemma LongLineNotKept(s: Sys)
    requires s.logs == [LONG_LOG] && s.origin == Some(ORIGIN) && LONG_LINE !in Written(s)
    requires s.st.sh.inProgress == Some(Checkpoint(0, 30, 0))
    ensures !AtLeastOnce(s)
  {
    LongLineMissing(Written(s), s.cut + PlacesOf(s.st.sh.inProgress));
    assert s.logs[0][1] == LONG_EVENT;
  }

  /** A line that does not fit is dropped, and the progress goes past its event all the same. */
  lemma LongLineLoses(cfg: Config) returns (acts: seq<Action>, t: Sys)
    requires !cfg.linesFit
    ensures Init(cfg, S0([LONG_LOG])) && Run(cfg, S0([LONG_LOG]), acts) == Some(t) && !AtLeastOnce(t)
    ensures t.st.sh.inProgress == Some(Checkpoint(0, 30, 0))
    ensures forall cut :: !EventIn(Written(t), cut, LONG_EVENT, 0, 1)
  {
    hide Run, Init, S0, Listen, AtLeastOnce;
    LongLogAllowed(cfg);
    acts := LongLogPrinted(cfg);
    t := Reader([LONG_LOG], 3, LONG_PIPE);
    LinesHandled(t.st);
    acts, t := TakeTwo(cfg, S0([LONG_LOG]), acts, t);
    acts, t := Take(cfg, S0([LONG_LOG]), acts, t);
    acts, t := DropNext(cfg, S0([LONG_LOG]), acts, t);
    acts, t := Take(cfg, S0([LONG_LOG]), acts, t);
    assert Written(t) == OPENING + [Begun(0), Note(Text), LAST_MARKER];
    forall cut ensures !EventIn(Written(t), cut, LONG_EVENT, 0, 1) {
      LongLineMissing(Written(t), cut);
    }
    LongLineNotKept(t);
  }

  /** A configuration that is not careful, and a run of it that is not at least once. */
  lemma CarelessLoses(cfg: Config) returns (s0: Sys, acts: seq<Action>, t: Sys)
    requires !cfg.Careful()
    ensures Init(cfg, s0) && Run(cfg, s0, acts) == Some(t) && !AtLeastOnce(t)
  {
    hide Init, Run, S0, AtLeastOnce;
    if !cfg.flush {
      s0 := S0(Logs([]));
      acts, t := UnflushedCaptureLoses(cfg);
    } else if !cfg.readsHold {
      s0 := S0(Logs([]));
      acts, t := ShortReadLoses(cfg);
    } else if !cfg.offsetsFit {
      s0 := S0([Transaction(FAR, [])]);
      acts, t := FarOffsetLoses(cfg);
    } else {
      s0 := S0([LONG_LOG]);
      acts, t := LongLineLoses(cfg);
    }
  }

  /**
   * Exactly when every run captures at least once: lines are flushed before they are acted on, no
   * read stops short, offsets fit in a long, and lines fit in the buffer.
   */
  lemma AtLeastOnceExactly(cfg: Config)
    ensures (forall s, acts :: Init(cfg, s) && Run(cfg, s, acts).Some? ==> AtLeastOnce(Run(cfg, s, acts).value))
            <==> cfg.flush && cfg.readsHold && cfg.offsetsFit && cfg.linesFit
  {
    hide AtLeastOnce, Init, Run;
    if cfg.Careful() {
      forall s, acts | Init(cfg, s) && Run(cfg, s, acts).Some? ensures AtLeastOnce(Run(cfg, s, acts).value) {
        CaptureIsAtLeastOnce(cfg, s, acts);
      }
    } else {
      var s0, acts, t := CarelessLoses(cfg);
    }
  }
}
