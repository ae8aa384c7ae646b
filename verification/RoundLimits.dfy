/**
 * When rounds save backwards: if one may start while lines of the last one are still to be handled,
 * or if offsets do not fit in a long.
 */
module RoundLimits {
  import opened Bytes
  import opened Decimal
  import opened Markers
  import opened Listener
  import opened ServerLog
  import opened Protocol
  import opened ProtocolLimits
  import opened RoundOrder
  import opened RoundStart
  import opened RoundEnd
  import opened Scenarios

  const TWO: seq<seq<Event>> := Logs([])

  /** Lines of the first round, none of which the listener has handled. */
  const BEHIND: seq<Item> := READ + [Note(Last)]

  const READ: seq<Item> :=
    OPENING + [Begun(0), Committed(0, 20)] + [Note(End), Note(Start(1))] + [Begun(1), Committed(1, 20)] + [Note(End)]

  /** Both files are read to their end. */
  lemma BothRead(cfg: Config) returns (acts: seq<Action>)
    ensures Reaches(cfg, S0(TWO), acts, Mid(TWO, ORIGIN, Some(0), Some(ORIGIN), Ended(2), READ))
  {
    hide Reaches, S0;
    FirstLog([]);
    acts := FirstRound(cfg, TWO);
    var t := Reader(TWO, 0, OPENING);
    acts, t := PrintTransaction(cfg, S0(TWO), acts, t, 0, 20, []);
    acts, t := Extend(cfg, S0(TWO), acts, t, CloseFile);
    acts, t := Extend(cfg, S0(TWO), acts, t, Open(0));
    assert t.pipe == OPENING + [Begun(0), Committed(0, 20)] + [Note(End), Note(Start(1))];
    acts, t := PrintTransaction(cfg, S0(TWO), acts, t, 1, 20, []);
    acts, t := Extend(cfg, S0(TWO), acts, t, CloseFile);
    assert t.pipe == READ;
  }

  /** The whole round is printed before the listener wakes up, and the main thread stops waiting. */
  lemma ListenerSleeps(cfg: Config) returns (acts: seq<Action>)
    requires !cfg.signalled
    ensures Reaches(cfg, S0(TWO), acts, Asleep(Idle))
  {
    hide Reaches, S0, Logs;
    acts := BothRead(cfg);
    var t := Mid(TWO, ORIGIN, Some(0), Some(ORIGIN), Ended(2), READ);
    acts, t := Extend(cfg, S0(TWO), acts, t, NameLast);
    acts, t := Extend(cfg, S0(TWO), acts, t, AnnounceLast);
    acts, t := Extend(cfg, S0(TWO), acts, t, WaitOther);
    assert t.pipe == BEHIND;
  }

  function Asleep(main: Main): Sys {
    Mid(TWO, ORIGIN, Some(0), Some(ORIGIN), main, BEHIND).(
      st := State(Shared(Some(ORIGIN), Some(ORIGIN), Some(ORIGIN), Some(0), Some(1), false), LO))
  }

  /** The next round is about to set the progress. */
  function Late(): Sys {
    Mid(TWO, ORIGIN, Some(0), Some(ORIGIN), Announced(2, 0, 4), BEHIND + [Note(First(0))])
  }

  lemma NextRound(cfg: Config) returns (acts: seq<Action>)
    requires !cfg.signalled
    ensures Reaches(cfg, S0(TWO), acts, Late())
  {
    hide Reaches, S0;
    acts := ListenerSleeps(cfg);
    var t := Asleep(Idle);
    acts, t := Extend(cfg, S0(TWO), acts, t, Load);
    acts, t := Extend(cfg, S0(TWO), acts, t, ClearRange);
    acts, t := Extend(cfg, S0(TWO), acts, t, NameFirst);
    acts, t := Extend(cfg, S0(TWO), acts, t, Announce);
    assert t == Late();
  }

  /** The round has set the progress. */
  function Begins(): Sys {
    Late().(main := Opening(2, 0, 4))
  }

  lemma ItBegins(cfg: Config)
    ensures Enabled(cfg, Late(), SetProgress) && Apply(cfg, Late(), SetProgress) == Begins()
    ensures Late().main.Announced? && !CleanStart(Late()) && Late().st.sh.xai == Some(ORIGIN)
  {
    assert Coming(Late())[2] == Begin(4, 10, "");
  }

  /** The listener handles two lines and then a transaction, which saves its commit. */
  lemma TakeTransaction(cfg: Config, s0: Sys, acts: seq<Action>, t: Sys, i: nat) returns (acts': seq<Action>, t': Sys)
    requires Reaches(cfg, s0, acts, t) && t.pending == None
    requires |t.pipe| >= 4 && t.pipe[2] == Begun(i) && t.pipe[3] == Committed(i, 20)
    requires var st := Listen(Listen(t.st, t.pipe[0].line), t.pipe[1].line);
      !st.lo.data && st.lo.name == i && st.sh.first == Some(0)
    ensures Reaches(cfg, s0, acts', t') && t'.pending == None && (Steady(acts) ==> Steady(acts'))
    ensures t'.pipe == t.pipe[4..] && t'.main == t.main && t'.logs == t.logs
    ensures t'.st.sh.xai == t'.st.sh.inProgress == Some(Checkpoint(i, 20, 0))
    ensures !t'.st.lo.data && t'.st.lo.name == i && t'.st.sh.first == Some(0)
    ensures t'.st.sh.last == Listen(Listen(t.st, t.pipe[0].line), t.pipe[1].line).sh.last
  {
    hide Reaches, Listen, Steady;
    acts', t' := TakeTwo(cfg, s0, acts, t);
    TransactionHandled(t'.st, 4, 20);
    acts', t' := TakeTwo(cfg, s0, acts', t');
  }

  const SECOND: seq<Item> :=
    [Note(End), Note(Start(1)), Begun(1), Committed(1, 20), Note(End), Note(Last), Note(First(0))]

  lemma FirstFour()
    ensures var pipe := Begins().pipe;
      && |pipe| == 11 && pipe[0].line == First(0) && pipe[1].line == Start(0)
      && pipe[2] == Begun(0) && pipe[3] == Committed(0, 20) && pipe[4..] == SECOND
    ensures Begins().st == AtStart() && Begins().pending == None
  {
  }

  /** Of the last round's two commits, the first. */
  lemma CatchesFirst(cfg: Config) returns (acts: seq<Action>, t: Sys)
    ensures Reaches(cfg, Begins(), acts, t) && Steady(acts)
    ensures t.pending == None && t.main == Begins().main && t.logs == Begins().logs && t.pipe == SECOND
    ensures !t.st.lo.data && t.st.sh.first == Some(0) && t.st.sh.last == None
  {
    t := Begins();
    acts := [];
    assert Reaches(cfg, t, acts, t);
    FirstFour();
    hide Reaches, Listen, Steady, Begins;
    NothingIsSteady();
    OpeningHandled(t.st);
    acts, t := TakeTransaction(cfg, Begins(), acts, t, 0);
  }

  /** The listener catches up with both of them. */
  lemma CatchesUp(cfg: Config) returns (acts: seq<Action>, t: Sys)
    ensures Reaches(cfg, Begins(), acts, t) && Steady(acts)
    ensures t.st.sh.xai == Some(Checkpoint(1, 20, 0)) && t.pending == None && t.main == Opening(2, 0, 4)
    ensures t.logs == TWO && t.pipe == [Note(End), Note(Last), Note(First(0))]
    ensures !t.st.lo.data && t.st.lo.name == 1 && t.st.sh.first == Some(0) && t.st.sh.last == None
  {
    BeginsAt();
    hide Reaches, Listen, Logs, Steady, Begins;
    acts, t := CatchesFirst(cfg);
    SecondHandled(t.st);
    acts, t := TakeTransaction(cfg, Begins(), acts, t, 1);
  }

  lemma BeginsAt()
    ensures Begins().main == Opening(2, 0, 4) && Begins().logs == TWO
  {
  }

  lemma LastAndFirst(st: State<nat>)
    requires !st.lo.data && st.sh.last == None && st.sh.first == Some(0)
    ensures var t := Listen(Listen(Listen(Listen(st, End), Last), First(0)), Start(0));
      t.lo.name == 0 && !t.lo.data && t.sh.first == Some(0) && t.sh.last == None
  {
  }

  lemma PrintsAgain(cfg: Config, t: Sys) returns (acts: seq<Action>, u: Sys)
    requires t.main == Opening(2, 0, 4) && t.logs == TWO
    requires t.pipe == [Note(End), Note(Last), Note(First(0))]
    ensures Reaches(cfg, t, acts, u) && Steady(acts) && u.pending == t.pending && u.st == t.st
    ensures u.pipe == [Note(End), Note(Last), Note(First(0)), Note(Start(0)), Begun(0), Committed(0, 20)]
  {
    u := t;
    acts := [];
    assert Reaches(cfg, t, acts, u);
    OpensAtFour(cfg, t);
    FirstLog([]);
    hide Reaches, Logs, Steady;
    NothingIsSteady();
    acts, u := Extend(cfg, t, acts, u, Open(0));
    acts, u := PrintTransaction(cfg, t, acts, u, 0, 20, []);
  }

  /** The round reads the first file's transaction again, and the listener saves its commit again. */
  lemma ReadsAgain(cfg: Config, t: Sys) returns (acts: seq<Action>, u: Sys)
    requires t.pending == None && t.main == Opening(2, 0, 4) && t.logs == TWO
    requires t.pipe == [Note(End), Note(Last), Note(First(0))]
    requires !t.st.lo.data && t.st.sh.first == Some(0) && t.st.sh.last == None
    ensures Reaches(cfg, t, acts, u) && Steady(acts) && u.st.sh.xai == Some(Checkpoint(0, 20, 0))
  {
    hide Reaches, Listen, Logs, Steady;
    acts, u := PrintsAgain(cfg, t);
    LastAndFirst(t.st);
    acts, u := TakeTwo(cfg, t, acts, u);
    acts, u := TakeTransaction(cfg, t, acts, u, 0);
  }

  lemma NothingIsSteady()
    ensures Steady([])
  {
  }

  lemma OpensAtFour(cfg: Config, t: Sys)
    requires t.main == Opening(2, 0, 4) && t.logs == TWO
    ensures Enabled(cfg, t, Open(0))
  {
  }

  /**
   * With the last round's lines still in the pipe when the progress is set, the round saves the end
   * of the second file's transaction and then the end of the first file's.
   */
  lemma LaggingListenerSavesLower(cfg: Config)
    returns (before: seq<Action>, s: Sys, acts: seq<Action>, t: Sys, more: seq<Action>, u: Sys)
    requires !cfg.signalled
    ensures Init(cfg, S0(TWO)) && Run(cfg, S0(TWO), before) == Some(s) && s.main.Announced? && !CleanStart(s)
    ensures Enabled(cfg, s, SetProgress) && Run(cfg, Apply(cfg, s, SetProgress), acts) == Some(t)
    ensures Run(cfg, t, more) == Some(u) && Steady(acts) && Steady(more)
    ensures t.st.sh.xai == Some(Checkpoint(1, 20, 0)) && u.st.sh.xai == Some(Checkpoint(0, 20, 0))
    ensures s.st.sh.xai == Some(ORIGIN)
  {
    hide Init, S0, Logs, Run, Steady, CleanStart, Enabled, Apply, Late, Begins;
    LogsAllowed(cfg, []);
    before := NextRound(cfg);
    s := Late();
    ItBegins(cfg);
    acts, t := CatchesUp(cfg);
    more, u := ReadsAgain(cfg, t);
  }

  lemma SteadyConcat(a: seq<Action>, b: seq<Action>)
    requires Steady(a) && Steady(b)
    ensures Steady(a + b)
  {
  }

  /** So there is a round of a run that does not ascend. */
  lemma LaggingRoundDescends(cfg: Config) returns (s0: Sys, before: seq<Action>, acts: seq<Action>)
    requires !cfg.signalled
    ensures IsRound(cfg, s0, before, acts) && !RoundAscends(cfg, s0, before, acts)
  {
    hide Init, S0, Run, Steady, Enabled, Apply, CleanStart, Ascending, AllAllowed, Saves;
    var first, s, t, more, u;
    before, s, first, t, more, u := LaggingListenerSavesLower(cfg);
    s0 := S0(TWO);
    acts := first + more;
    var b := Apply(cfg, s, SetProgress);
    RunConcat(cfg, b, first, more);
    SteadyConcat(first, more);
    if RoundAscends(cfg, s0, before, acts) {
      assert acts[..|first|] == first;
      ItSets(cfg, s);
      SavesAreTheRecord(cfg, b, first);
      RecordsAscend(cfg, b, acts, |first|, FirstPosition(s));
      assert false;
    }
  }

  lemma ItSets(cfg: Config, s: Sys)
    requires s.main.Announced?
    ensures Enabled(cfg, s, SetProgress) && Apply(cfg, s, SetProgress).st.sh.xai == s.st.sh.xai
  {
  }

  // ----- offsets that do not fit in a long

  const FAR_LOG: seq<Event> := [
    G, X(FAR, []), Event(Gtid, FAR, FAR + 10, "", []), Event(Xid, FAR + 10, FAR + 20, "", [])]
  const FAR_START := Checkpoint(0, FAR, 0)
  const FAR_BEGUN := Item(Begin(LONG_MAX, LONG_MAX, ""), 0, 2)
  const FAR_COMMITTED := Item(Commit(LONG_MAX, LONG_MAX, ""), 0, 3)

  lemma FarLogAllowed(cfg: Config)
    requires !cfg.offsetsFit
    ensures Init(cfg, S0([FAR_LOG])) && StartsAt([FAR_LOG], FAR_START, 2)
  {
    var log := FAR_LOG;
    assert !InGroup(log, 0) && InGroup(log, 1) && !InGroup(log, 2) && InGroup(log, 3) && !InGroup(log, 4);
    assert Offset(log, 1) == 10 && Offset(log, 2) == FAR && Offset(log, 3) == FAR + 10;
    assert EventOk(log, 0) && EventOk(log, 1) && EventOk(log, 2) && EventOk(log, 3);
    assert EventsAllowed(cfg, [log]);
  }

  function FarAnnounced(): Sys {
    Mid([FAR_LOG], FAR_START, Some(0), None, Announced(1, 0, FAR), [Note(First(0))])
  }

  function FarBegins(): Sys {
    Mid([FAR_LOG], FAR_START, Some(0), Some(FAR_START), Opening(1, 0, FAR), [Note(First(0))])
  }

  lemma FarSets(cfg: Config)
    ensures Enabled(cfg, FarAnnounced(), SetProgress) && Apply(cfg, FarAnnounced(), SetProgress) == FarBegins()
    ensures Enabled(cfg, FarBegins(), Open(2))
    ensures Printed(FAR_LOG[2], 0, 2) == [FAR_BEGUN] + [] && Printed(FAR_LOG[3], 0, 3) == [FAR_COMMITTED] + []
    ensures FarBegins().st.sh.xai == Some(FAR_START) && FirstPosition(FarAnnounced()) == FAR_START
    ensures Offset(FAR_LOG, 2) == FAR
  {
    assert Offset(FAR_LOG, 1) == 10 && Offset(FAR_LOG, 2) == FAR;
  }

  function FarReading(): Sys {
    Mid([FAR_LOG], FAR_START, Some(0), Some(FAR_START), Reading(1, 0, 2, []), OPENING)
  }

  lemma FarOpened(cfg: Config) returns (acts: seq<Action>)
    ensures Reaches(cfg, FarBegins(), acts, FarReading()) && Steady(acts)
  {
    var t := FarBegins();
    acts := [];
    assert Reaches(cfg, t, acts, t);
    FarSets(cfg);
    NothingIsSteady();
    hide Reaches, Steady;
    acts, t := Extend(cfg, FarBegins(), acts, t, Open(2));
    assert t.pipe == OPENING;
  }

  /** The round's transaction is printed. */
  lemma FarPrinted(cfg: Config) returns (acts: seq<Action>, t: Sys)
    ensures Reaches(cfg, FarBegins(), acts, t) && Steady(acts)
    ensures t.pipe == [Note(First(0)), Note(Start(0)), FAR_BEGUN, FAR_COMMITTED]
    ensures t.st == FarBegins().st && t.pending == None
  {
    FarSets(cfg);
    hide Reaches, Printed, Steady, Enabled, Apply;
    acts := FarOpened(cfg);
    acts, t := PrintOne(cfg, FarBegins(), acts, FarReading(), FAR_BEGUN, []);
    acts, t := PrintOne(cfg, FarBegins(), acts, t, FAR_COMMITTED, []);
  }

  /** A round that starts past what a long can hold saves a position behind its start. */
  lemma FarRoundDescends(cfg: Config) returns (s0: Sys, before: seq<Action>, acts: seq<Action>)
    requires !cfg.offsetsFit
    ensures IsRound(cfg, s0, before, acts) && !RoundAscends(cfg, s0, before, acts)
  {
    hide Reaches, S0, Init, Listen, Steady, Enabled, Apply, Saves, Ascending, AllAllowed;
    FarLogAllowed(cfg);
    s0 := S0([FAR_LOG]);
    before := Told(cfg, [FAR_LOG], FAR_START, 2);
    FarSets(cfg);
    var t;
    acts, t := FarPrinted(cfg);
    OpeningHandled(t.st);
    acts, t := TakeTwo(cfg, FarBegins(), acts, t);
    TransactionPast(t.st);
    acts, t := TakeTwo(cfg, FarBegins(), acts, t);
    FarIsRound(cfg, before, acts, t);
    SavesAreTheRecord(cfg, FarBegins(), acts);
    BehindTheStart(Saves(cfg, FarBegins(), acts), FAR_START);
  }

  lemma TransactionPast(st: State<nat>)
    requires !st.lo.data && st.lo.name == 0
    ensures Listen(Listen(st, Begin(LONG_MAX, LONG_MAX, "")), Commit(LONG_MAX, LONG_MAX, "")).sh.xai
         == Some(Checkpoint(0, LONG_MAX, 0))
  {
  }

  lemma FarIsRound(cfg: Config, before: seq<Action>, acts: seq<Action>, t: Sys)
    requires Init(cfg, S0([FAR_LOG])) && Reaches(cfg, S0([FAR_LOG]), before, FarAnnounced())
    requires Reaches(cfg, FarBegins(), acts, t) && Steady(acts)
    ensures Run(cfg, S0([FAR_LOG]), before) == Some(FarAnnounced()) && Run(cfg, FarBegins(), acts) == Some(t)
    ensures IsRound(cfg, S0([FAR_LOG]), before, acts)
  {
    hide Init, S0, Run, Steady;
    FarSets(cfg);
  }

  lemma BehindTheStart(cs: seq<Option<Checkpoint<nat>>>, from: Checkpoint<nat>)
    requires LastOr(cs, Some(from)) == Some(Checkpoint(from.name, LONG_MAX, 0)) && from.pos > LONG_MAX
    ensures !Ascending(cs, from)
  {
  }

  /**
   * Exactly when every round of every run ascends: no wait for the end of a round ends but by its
   * signal, and offsets fit in a long.
   */
  lemma RoundsAscendExactly(cfg: Config)
    ensures (forall s0, before, acts | IsRound(cfg, s0, before, acts) :: RoundAscends(cfg, s0, before, acts))
            <==> cfg.signalled && cfg.offsetsFit
  {
    hide IsRound, RoundAscends;
    if cfg.signalled && cfg.offsetsFit {
      forall s0, before, acts | IsRound(cfg, s0, before, acts) ensures RoundAscends(cfg, s0, before, acts) {
        SignalledRoundsAscend(cfg, s0, before, acts);
      }
    } else if !cfg.signalled {
      var s0, before, acts := LaggingRoundDescends(cfg);
    } else {
      var s0, before, acts := FarRoundDescends(cfg);
    }
  }

  // ----- a signal that comes from an earlier round

  lemma SignalHandled(st: State<nat>)
    requires !st.lo.data && st.lo.name == 1 && st.sh.last == Some(1)
    ensures var t := Listen(Listen(st, End), Last);
      && t.sh.seqn == t.sh.inProgress == st.sh.inProgress && t.sh.endEvent && !t.lo.data && t.lo.name == 1
  {
  }

  const FIRST_FOUR: seq<Item> := [Note(First(0)), Note(Start(0)), Begun(0), Committed(0, 20)]
  const NEXT_FOUR: seq<Item> := [Note(End), Note(Start(1)), Begun(1), Committed(1, 20)]
  const LAST_TWO: seq<Item> := [Note(End), Note(Last)]

  lemma BehindInParts()
    ensures BEHIND == FIRST_FOUR + (NEXT_FOUR + LAST_TWO)
  {
  }

  /** The listener handles the first round's lines after the main thread has given up on them. */
  lemma SignalsLate(cfg: Config) returns (acts: seq<Action>, t: Sys)
    requires !cfg.signalled
    ensures Reaches(cfg, S0(TWO), acts, t) && t.pending == None && t.pipe == [] && t.main == Idle && t.logs == TWO
    ensures t.st.sh.seqn == t.st.sh.inProgress == Some(Checkpoint(1, 20, 0)) && t.st.sh.endEvent
    ensures !t.st.lo.data && t.st.lo.name == 1
  {
    hide Reaches, Listen, S0, Logs, Steady;
    acts := ListenerSleeps(cfg);
    t := Asleep(Idle);
    BehindInParts();
    OpeningHandled(t.st);
    acts, t := TakeTransaction(cfg, S0(TWO), acts, t, 0);
    assert t.pipe == NEXT_FOUR + LAST_TWO;
    SecondHandled(t.st);
    acts, t := TakeTransaction(cfg, S0(TWO), acts, t, 1);
    assert t.pipe == LAST_TWO;
    SignalHandled(t.st);
    acts, t := TakeTwo(cfg, S0(TWO), acts, t);
  }

  const THREE: seq<seq<Event>> := TWO + [[]]

  lemma BeginsNewFile(cfg: Config, s0: Sys, acts: seq<Action>, t: Sys) returns (acts': seq<Action>, t': Sys)
    requires Reaches(cfg, s0, acts, t) && t.logs == TWO
    ensures Reaches(cfg, s0, acts', t') && t' == t.(logs := THREE)
  {
    TransactionOk(20, []);
    hide Reaches;
    acts', t' := Extend(cfg, s0, acts, t, NewFile);
  }

  lemma LoadsOn(cfg: Config, s0: Sys, acts: seq<Action>, t: Sys) returns (acts': seq<Action>, t': Sys)
    requires Reaches(cfg, s0, acts, t) && t.main == Idle && t.logs == TWO
    requires t.st.sh.seqn == Some(Checkpoint(1, 20, 0))
    ensures Reaches(cfg, s0, acts', t')
    ensures t' == t.(logs := THREE, main := Cleared(3, 1, 20), st := t.st.(sh := t.st.sh.(first := None, last := None)))
  {
    FarEnough();
    hide Reaches, Logs, Offset, InGroup, EventOk;
    acts', t' := BeginsNewFile(cfg, s0, acts, t);
    acts', t' := Extend(cfg, s0, acts', t', Load);
    acts', t' := Extend(cfg, s0, acts', t', ClearRange);
  }

  /** The next round reads on from there, and over a file that the server has begun since. */
  lemma ReadsOn(cfg: Config, s0: Sys, acts: seq<Action>, t: Sys) returns (acts': seq<Action>, t': Sys)
    requires Reaches(cfg, s0, acts, t) && t.pipe == [] && t.main == Idle && t.logs == TWO && t.pending == None
    requires t.st.sh.seqn == Some(Checkpoint(1, 20, 0))
    ensures Reaches(cfg, s0, acts', t') && t'.main == Opening(3, 1, 20) && t'.logs == THREE && t'.pending == None
    ensures t'.pipe == [Note(First(1))] && t'.st.lo == t.st.lo
    ensures t'.st.sh.seqn == t'.st.sh.inProgress == Some(Checkpoint(1, 20, 0))
    ensures t'.st.sh.endEvent == t.st.sh.endEvent && t'.st.sh.first == Some(1)
  {
    hide Reaches, Logs;
    acts', t' := LoadsOn(cfg, s0, acts, t);
    acts', t' := Extend(cfg, s0, acts', t', NameFirst);
    acts', t' := Extend(cfg, s0, acts', t', Announce);
    acts', t' := Extend(cfg, s0, acts', t', SetProgress);
    assert t'.pipe == [Note(First(1))];
  }

  const SECOND_ROUND: seq<Item> := [Note(First(1)), Note(Start(1)), Note(End), Note(Start(2)), Note(End), Note(Last)]

  lemma FarEnough()
    ensures |THREE| == 3 && |THREE[1]| == 2 && Offset(THREE[1], 2) == 20 && THREE[2] == []
  {
    assert Offset(Transaction(20, []), 2) == 20;
  }

  lemma ReadsBoth(cfg: Config, s0: Sys, acts: seq<Action>, t: Sys) returns (acts': seq<Action>, t': Sys)
    requires Reaches(cfg, s0, acts, t) && t.main == Opening(3, 1, 20) && t.logs == THREE && t.pipe == [Note(First(1))]
    ensures Reaches(cfg, s0, acts', t') && t' == t.(main := Ended(3), pipe := SECOND_ROUND[..5])
  {
    FarEnough();
    hide Reaches, Logs, Offset;
    acts', t' := Extend(cfg, s0, acts, t, Open(2));
    acts', t' := Extend(cfg, s0, acts', t', CloseFile);
    OffsetOfFirst([]);
    acts', t' := Extend(cfg, s0, acts', t', Open(0));
    acts', t' := Extend(cfg, s0, acts', t', CloseFile);
    assert t'.pipe == SECOND_ROUND[..5];
  }

  lemma OffsetOfFirst(log: seq<Event>)
    ensures Offset(log, 0) == BIN_LOG_HEADER_SIZE
  {
  }

  lemma WaitsAgain(cfg: Config, s0: Sys, acts: seq<Action>, t: Sys) returns (acts': seq<Action>, t': Sys)
    requires Reaches(cfg, s0, acts, t) && t.main == Opening(3, 1, 20) && t.logs == THREE && t.pending == None
    requires t.pipe == [Note(First(1))]
    ensures Reaches(cfg, s0, acts', t') && t'.main == Waiting && t'.pending == None && t'.pipe == SECOND_ROUND
    ensures t'.st.lo == t.st.lo && t'.st.sh == t.st.sh.(last := t'.st.sh.last)
  {
    hide Reaches, Logs;
    acts', t' := ReadsBoth(cfg, s0, acts, t);
    acts', t' := Extend(cfg, s0, acts', t', NameLast);
    acts', t' := Extend(cfg, s0, acts', t', AnnounceLast);
    assert t'.pipe == SECOND_ROUND;
  }

  lemma ThirdHandled(st: State<nat>)
    requires !st.lo.data && st.sh.first == Some(1)
    ensures var t := Listen(Listen(Listen(Listen(st, First(1)), Start(1)), End), Start(2));
      && t.sh == st.sh.(inProgress := Some(Checkpoint(2, 4, 0)))
  {
  }

  /**
   * The signal of the first round, which nobody waited for, ends the wait of the second. The next
   * round will start where the first one ended, behind the listener's progress.
   */
  lemma StaleSignal(cfg: Config) returns (acts: seq<Action>, t: Sys)
    requires !cfg.signalled
    ensures Init(cfg, S0(TWO)) && Run(cfg, S0(TWO), acts) == Some(t)
    ensures t.main.Waiting? && t.st.sh.endEvent
    ensures t.st.sh.seqn == Some(Checkpoint(1, 20, 0)) && t.st.sh.inProgress == Some(Checkpoint(2, 4, 0))
  {
    hide Init, S0, Run, Listen, Logs;
    LogsAllowed(cfg, []);
    acts, t := SignalsLate(cfg);
    acts, t := ReadsOn(cfg, S0(TWO), acts, t);
    acts, t := WaitsAgain(cfg, S0(TWO), acts, t);
    ThirdHandled(t.st);
    acts, t := TakeTwo(cfg, S0(TWO), acts, t);
    acts, t := TakeTwo(cfg, S0(TWO), acts, t);
  }

  /** In a wait that can end by its signal, the next round's start is the listener's progress. */
  ghost predicate HandedOver(s: Sys) {
    s.main.Waiting? && s.st.sh.endEvent ==> s.st.sh.seqn == s.st.sh.inProgress
  }

  /** Exactly when every signal hands over the progress: no wait before it was given up. */
  lemma HandOverExactly(cfg: Config)
    ensures (forall s, acts :: Init(cfg, s) && Run(cfg, s, acts).Some? ==> HandedOver(Run(cfg, s, acts).value))
            <==> cfg.signalled
  {
    hide Init, Run;
    if cfg.signalled {
      forall s, acts | Init(cfg, s) && Run(cfg, s, acts).Some? ensures HandedOver(Run(cfg, s, acts).value) {
        SignalHandsOver(cfg, s, acts);
      }
    } else {
      var acts, t := StaleSignal(cfg);
    }
  }
}
