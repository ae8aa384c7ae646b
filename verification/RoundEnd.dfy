/**
 * How a round ends, and where the next one starts: when its last line is handled, the wait for it can
 * end, and the listener's progress has been handed over.
 */
module RoundEnd {
  import opened Bytes
  import opened Markers
  import opened Listener
  import opened ServerLog
  import opened Protocol
  import opened ProtocolProof
  import opened RoundOrder
  import opened RoundStart

  /** The file the listener is in once all printed lines are handled. */
  function EndName(s: Sys): nat {
    NameAfter(CurrentName(s), s.pipe)
  }

  predicate NoNames(lines: seq<Line<nat>>) {
    forall i :: 0 <= i < |lines| ==> !lines[i].Start? && !lines[i].First?
  }

  /** The reader gets to the last file it was told of, and its name is what the Last line is checked for. */
  ghost predicate OnCourse(s: Sys) {
    match s.main
    case Loaded(n, i, _) => i < n <= |s.logs|
    case Cleared(n, i, _) => i < n <= |s.logs|
    case Named(n, i, _) => i < n <= |s.logs|
    case Announced(n, i, _) => i < n <= |s.logs|
    case Opening(n, i, _) => i < n
    case Reading(n, i, _, rest) => i < n && EndName(s) == i && NoNames(LinesOf(rest))
    case Ended(n) => n > 0 && EndName(s) == n - 1
    case LastSet => s.st.sh.last == Some(EndName(s))
    case Waiting => Coming(s) != [] ==> s.st.sh.last == Some(EndName(s))
    case _ => true
  }

  /** While the main thread waits: nothing is coming only after the signal, and then the progress is handed over. */
  ghost predicate HandsOver(s: Sys) {
    s.main.Waiting? ==>
      && (Coming(s) == [] ==> s.st.sh.endEvent)
      && (s.st.sh.endEvent ==> s.st.sh.seqn == s.st.sh.inProgress)
  }

  ghost predicate Ending(s: Sys) {
    Calm(s) && OnCourse(s) && HandsOver(s)
  }

  // ----- what one step does to the start of the next round

  /** The next round's start changes when it is chosen, read back, or handed over by either thread, and only then. */
  function NextStart(s: Sys, a: Action): Option<Checkpoint<nat>> {
    match a
    case ChooseStart(c) => Some(c)
    case Crash(_) => s.st.sh.xai
    case WaitOther => s.st.sh.inProgress
    case Handle =>
      if s.pending.Some? && s.pending.value.line.Last? && s.st.sh.last == Some(s.st.lo.name) then s.st.sh.inProgress
      else s.st.sh.seqn
    case _ => s.st.sh.seqn
  }

  lemma StartIsHandedOver(cfg: Config, s: Sys, a: Action)
    requires Enabled(cfg, s, a)
    ensures Apply(cfg, s, a).st.sh.seqn == NextStart(s, a)
  {
    hide EventOk, Offset, InGroup, Printed, BetweenGroups, EventAllowed;
  }

  /** The Last line signals and hands over if it is the listener's own file that was named last. */
  lemma LastSignals(st: State<nat>)
    ensures var t := Listen(st, Last);
      && t.lo.name == st.lo.name && t.sh.inProgress == st.sh.inProgress && t.sh.last == st.sh.last
      && (st.sh.last == Some(st.lo.name) ==> t.sh.endEvent && t.sh.seqn == st.sh.inProgress)
  {
  }

  lemma ListenKeepsLast(st: State<nat>, ln: Line<nat>)
    ensures Listen(st, ln).sh.last == st.sh.last
  {
  }

  // ----- one step

  lemma WriteKeepsName(cfg: Config, s: Sys)
    requires Enabled(cfg, s, Write)
    ensures var t := Apply(cfg, s, Write); EndName(t) == EndName(s) && Coming(t) == Coming(s)
  {
    hide NameAfter;
    WriteFlows(s, Apply(cfg, s, Write));
    FirstName(s.st.lo.name, s.pipe[0], s.pipe[1..]);
  }

  lemma DropKeepsName(cfg: Config, s: Sys)
    requires Enabled(cfg, s, Drop)
    ensures EndName(Apply(cfg, s, Drop)) == EndName(s)
  {
    hide NameAfter;
    var t := Apply(cfg, s, Drop);
    assert s.pipe == [s.pipe[0]] + t.pipe;
    FirstName(s.st.lo.name, s.pipe[0], t.pipe);
    NoPending(s);
    NameStays(s.st.lo.name, s.pipe[0]);
    NameStays(s.st.lo.name, Note(Text));
  }

  lemma NoPending(s: Sys)
    requires s.pending == None
    ensures CurrentName(s) == s.st.lo.name
  {
  }

  lemma ListenerKeepsEnding(cfg: Config, s: Sys, a: Action)
    requires Ending(s) && Enabled(cfg, s, a) && (a.Write? || a.Drop? || a.FlushSome?)
    ensures Ending(Apply(cfg, s, a))
  {
    hide Calm, EndName;
    var t := Apply(cfg, s, a);
    ListenerStaysCalm(cfg, s, a);
    if a.Write? {
      WriteKeepsName(cfg, s);
    } else if a.Drop? {
      DropKeepsName(cfg, s);
      assert Coming(s)[0] == s.pipe[0].line && Coming(t) == [Text] + Coming(s)[1..];
      if s.main.Waiting? {
        WaitingCalm(s);
      }
    } else {
      FlushKeepsName(s, t);
    }
  }

  lemma FlushKeepsName(s: Sys, t: Sys)
    requires s.pipe == t.pipe && s.pending == t.pending && s.st == t.st
    ensures EndName(t) == EndName(s) && Coming(t) == Coming(s)
  {
  }

  lemma WaitingCalm(s: Sys)
    requires Calm(s) && s.main.Waiting?
    ensures s.st.sh.endEvent ==> Coming(s) == []
    ensures |Coming(s)| > 1 ==> !Coming(s)[0].Last?
    ensures |Coming(s)| == 1 ==> Coming(s)[0].Last?
  {
    var coming := Coming(s);
    if |coming| > 1 {
      assert coming[..|coming| - 1][0] == coming[0];
    }
  }

  lemma HandleKeepsEnding(cfg: Config, s: Sys)
    requires Ending(s) && Enabled(cfg, s, Handle)
    ensures Ending(Apply(cfg, s, Handle))
  {
    hide Calm, Listen, NameAfter;
    var t, ln := Apply(cfg, s, Handle), s.pending.value.line;
    HandleStaysCalm(cfg, s);
    HandleName(s.st, s.pending.value);
    ListenKeepsLast(s.st, ln);
    NoPending(t);
    assert EndName(t) == EndName(s);
    assert Coming(s)[0] == ln && Coming(t) == Coming(s)[1..];
    if s.main.Waiting? {
      WaitingCalm(s);
      WaitingCalm(t);
      if |Coming(s)| == 1 {
        assert s.pipe == [];
        OnlyName(s);
        LastSignals(s.st);
      }
    }
  }

  lemma OnlyName(s: Sys)
    requires s.pending.Some? && s.pending.value.line.Last? && s.pipe == []
    ensures EndName(s) == s.st.lo.name
  {
    NameStays(s.st.lo.name, s.pending.value);
  }

  lemma EventHasNoNames(logs: seq<seq<Event>>, i: nat, k: nat)
    requires LogsOk(logs) && i < |logs| && k < |logs[i]|
    ensures NoNames(LinesOf(Printed(logs[i][k], i, k)))
  {
    EventBounds(logs, i, k);
    var e := logs[i][k];
    var all := LinesOf(Printed(e, i, k));
    forall j | 0 <= j < |all| ensures !all[j].Start? && !all[j].First? {
      if j >= |MarkerOf(e)| {
        assert all[j] == e.text[j - |MarkerOf(e)|];
        assert !all[j].IsMarker();
      }
    }
  }

  lemma PrintKeepsEnding(cfg: Config, s: Sys, a: Action)
    requires Ending(s) && Enabled(cfg, s, a)
    requires a.Announce? || a.Open? || a.Chat? || a.Emit? || a.CloseFile? || a.FailFile? || a.AnnounceLast?
    ensures Ending(Apply(cfg, s, a))
  {
    hide Calm, NameAfter, Offset, InGroup, CurrentName;
    var t := Apply(cfg, s, a);
    PrintStaysCalm(cfg, s, a);
    var it := match a
      case Announce => Note(First(s.main.i))
      case Open(_) => Note(Start(s.main.i))
      case Chat(line) => Note(line)
      case Emit => s.main.rest[0]
      case AnnounceLast => Note(Last)
      case _ => Note(End);
    SendComing(s, it, t.main);
    SendStream(s, it);
    SameCurrentName(s, t);
    assert EndName(t) == NameAfter(EndName(s), [it]);
    if a.Open? {
      StartNames(EndName(s), s.main.i);
    } else if a.Emit? {
      assert LinesOf(s.main.rest)[0] == it.line;
      assert LinesOf(t.main.rest) == LinesOf(s.main.rest)[1..];
      NameStays(EndName(s), it);
    } else if !a.Announce? {
      NameStays(EndName(s), it);
    }
    if a.AnnounceLast? {
      AnnouncedLast(t, Coming(s));
    }
  }

  lemma SameCurrentName(s: Sys, t: Sys)
    requires s.st.lo.name == t.st.lo.name && s.pending == t.pending
    ensures CurrentName(t) == CurrentName(s)
  {
  }

  lemma StartNames(name: nat, i: nat)
    ensures NameAfter(name, [Note(Start(i))]) == i
  {
  }

  lemma AnnouncedLast(t: Sys, before: seq<Line<nat>>)
    requires Calm(t) && t.main.Waiting? && Coming(t) == before + [Last]
    ensures Coming(t) != [] && !t.st.sh.endEvent
  {
  }

  lemma QuietKeepsEnding(cfg: Config, s: Sys, a: Action)
    requires LogsOk(s.logs) && Ending(s) && Enabled(cfg, s, a)
    requires Grow(a) || a.SetProgress? || a.NextEvent? || a.NameLast? || a.Crash?
    ensures Ending(Apply(cfg, s, a))
  {
    hide Calm, NameAfter, LogsOk, InGroup, Offset, EventOk, Printed, CurrentName;
    var t := Apply(cfg, s, a);
    QuietStaysCalm(cfg, s, a);
    if !a.Crash? {
      SameComing(cfg, s, a);
      SameCurrentName(s, t);
      if a.NextEvent? {
        EventHasNoNames(s.logs, s.main.i, s.main.k);
      }
    }
  }

  lemma BetweenRoundsKeepsEnding(cfg: Config, s: Sys, a: Action)
    requires cfg.signalled && Ending(s) && Enabled(cfg, s, a) && BetweenRounds(a)
    ensures Ending(Apply(cfg, s, a))
  {
    hide Calm, EndName, BetweenGroups;
    BetweenRoundsStaysCalm(cfg, s, a);
  }

  lemma StepKeepsEnding(cfg: Config, s: Sys, a: Action)
    requires cfg.signalled && Sound(cfg, s) && Ending(s) && Enabled(cfg, s, a)
    ensures Ending(Apply(cfg, s, a))
  {
    hide Ending, Apply, Enabled, LogsOk, EventsAllowed;
    if a.Write? || a.Drop? || a.FlushSome? {
      ListenerKeepsEnding(cfg, s, a);
    } else if a.Handle? {
      HandleKeepsEnding(cfg, s);
    } else if a.Announce? || a.Open? || a.Chat? || a.Emit? || a.CloseFile? || a.FailFile? || a.AnnounceLast? {
      PrintKeepsEnding(cfg, s, a);
    } else if BetweenRounds(a) {
      BetweenRoundsKeepsEnding(cfg, s, a);
    } else {
      QuietKeepsEnding(cfg, s, a);
    }
  }

  lemma InitEnds(cfg: Config, s: Sys)
    requires Init(cfg, s)
    ensures Ending(s)
  {
  }

  lemma {:induction false} RunKeepsEnding(cfg: Config, s: Sys, acts: seq<Action>)
    requires cfg.signalled && Init(cfg, s) && Run(cfg, s, acts).Some?
    ensures Ending(Run(cfg, s, acts).value)
    decreases |acts|
  {
    hide Ending, Init, Enabled, Apply, Sound;
    if acts == [] {
      InitEnds(cfg, s);
    } else {
      var most := acts[..|acts| - 1];
      RunKeepsEnding(cfg, s, most);
      RunIsSound(cfg, s, most);
      StepKeepsEnding(cfg, Run(cfg, s, most).value, acts[|acts| - 1]);
    }
  }

  // ----- runs

  /** When the end of a round is signalled, the next one will start at the listener's progress. */
  lemma SignalHandsOver(cfg: Config, s: Sys, acts: seq<Action>)
    requires cfg.signalled && Init(cfg, s) && Run(cfg, s, acts).Some?
    ensures var t := Run(cfg, s, acts).value;
      t.main.Waiting? && t.st.sh.endEvent ==> t.st.sh.seqn == t.st.sh.inProgress
  {
    hide Init, Run;
    RunKeepsEnding(cfg, s, acts);
  }

  /** Once the listener has handled everything, the wait can end. */
  lemma WaitCanEnd(cfg: Config, s: Sys, acts: seq<Action>)
    requires cfg.signalled && Init(cfg, s) && Run(cfg, s, acts).Some?
    ensures var t := Run(cfg, s, acts).value;
      t.main.Waiting? && Coming(t) == [] ==> Enabled(cfg, t, WaitSignalled)
  {
    hide Init, Run;
    RunKeepsEnding(cfg, s, acts);
  }

  /** The main thread stays between rounds: no new list of files, no chosen start, no new process. */
  predicate StaysIdle(acts: seq<Action>) {
    forall n :: 0 <= n < |acts| ==> !acts[n].Load? && !acts[n].ChooseStart? && !acts[n].Crash?
  }

  /** No Last line is handled along the way. */
  ghost predicate HandlesNoLast(cfg: Config, u: Sys, acts: seq<Action>)
    requires Run(cfg, u, acts).Some?
    decreases |acts|
  {
    acts == [] ||
    var most := acts[..|acts| - 1];
    && HandlesNoLast(cfg, u, most)
    && var v := Run(cfg, u, most).value;
       !(acts[|acts| - 1].Handle? && v.pending.Some? && v.pending.value.line.Last?)
  }

  /** What the next round starts at was the listener's progress at some moment since `u`. */
  ghost predicate ProgressSince(cfg: Config, u: Sys, acts: seq<Action>, c: Option<Checkpoint<nat>>) {
    exists k: nat :: ProgressAt(cfg, u, acts, c, k)
  }

  ghost predicate ProgressAt(cfg: Config, u: Sys, acts: seq<Action>, c: Option<Checkpoint<nat>>, k: nat) {
    k <= |acts| && Run(cfg, u, acts[..k]).Some? && Run(cfg, u, acts[..k]).value.st.sh.inProgress == c
  }

  /** From a state between rounds that has the progress as its start. */
  lemma {:induction false} IdleKeepsStart(cfg: Config, u: Sys, acts: seq<Action>)
    requires u.main.Idle? && u.st.sh.seqn == u.st.sh.inProgress && StaysIdle(acts) && Run(cfg, u, acts).Some?
    ensures var t := Run(cfg, u, acts).value;
      && (t.main.Idle? || t.main.SavingStart?) && ProgressSince(cfg, u, acts, t.st.sh.seqn)
      && (HandlesNoLast(cfg, u, acts) ==> t.st.sh.seqn == u.st.sh.inProgress)
    decreases |acts|
  {
    hide Enabled, Apply;
    if acts == [] {
      assert ProgressAt(cfg, u, acts, u.st.sh.seqn, 0);
    } else {
      var n := |acts| - 1;
      var most, a := acts[..n], acts[n];
      IdleKeepsStart(cfg, u, most);
      var v := Run(cfg, u, most).value;
      StartIsHandedOver(cfg, v, a);
      IdleStep(cfg, v, a);
      if a.Handle? && NextStart(v, a) != v.st.sh.seqn {
        assert ProgressAt(cfg, u, acts, v.st.sh.inProgress, n);
      } else {
        var k: nat :| ProgressAt(cfg, u, most, v.st.sh.seqn, k);
        assert most[..k] == acts[..k];
        assert ProgressAt(cfg, u, acts, v.st.sh.seqn, k);
      }
    }
  }

  lemma IdleStep(cfg: Config, s: Sys, a: Action)
    requires Enabled(cfg, s, a) && (s.main.Idle? || s.main.SavingStart?) && !a.Load? && !a.ChooseStart? && !a.Crash?
    ensures var t := Apply(cfg, s, a); (t.main.Idle? || t.main.SavingStart?) && !a.WaitOther?
  {
    hide EventOk, Offset, InGroup, Printed, BetweenGroups, EventAllowed;
  }

  /** What the next round loads, after a wait that ended by `w` in state `u`. */
  ghost predicate AfterWait(cfg: Config, u: Sys, w: Action, acts: seq<Action>) {
    && u.main.Waiting? && (w.WaitSignalled? || w.WaitOther?) && Enabled(cfg, u, w)
    && StaysIdle(acts) && Run(cfg, Apply(cfg, u, w), acts).Some?
    && Enabled(cfg, Run(cfg, Apply(cfg, u, w), acts).value, Load)
  }

  /**
   * After a wait that was given up, the next round loads the progress as it stood when the wait
   * ended; or, if the listener handled a Last line since, as it stood at some moment since then.
   */
  lemma GivenUpRoundLoads(cfg: Config, u: Sys, acts: seq<Action>)
    requires AfterWait(cfg, u, WaitOther, acts)
    ensures var v := Apply(cfg, u, WaitOther);
      var t := Run(cfg, v, acts).value;
      var c := Apply(cfg, t, Load).main;
      && c.Loaded? && c.n == |t.logs| && ProgressSince(cfg, v, acts, t.st.sh.seqn) && t.st.sh.seqn.Some?
      && c.i == t.st.sh.seqn.value.name && c.pos == t.st.sh.seqn.value.pos
      && (HandlesNoLast(cfg, v, acts) ==> t.st.sh.seqn == u.st.sh.inProgress)
  {
    hide Run;
    IdleKeepsStart(cfg, Apply(cfg, u, WaitOther), acts);
  }

  /** After a signalled wait, it always loads the progress as it stood when the wait ended. */
  lemma SignalledRoundLoads(cfg: Config, s: Sys, before: seq<Action>, acts: seq<Action>)
    requires cfg.signalled && Init(cfg, s) && Run(cfg, s, before).Some?
    requires AfterWait(cfg, Run(cfg, s, before).value, WaitSignalled, acts)
    ensures var u := Run(cfg, s, before).value;
      var t := Run(cfg, Apply(cfg, u, WaitSignalled), acts).value;
      var c := Apply(cfg, t, Load).main;
      && u.st.sh.inProgress == t.st.sh.seqn && t.st.sh.seqn.Some?
      && c == Loaded(|t.logs|, t.st.sh.seqn.value.name, t.st.sh.seqn.value.pos)
  {
    hide Init, Run;
    var u := Run(cfg, s, before).value;
    var v := Apply(cfg, u, WaitSignalled);
    RunKeepsEnding(cfg, s, before);
    assert Coming(u) == [] && Coming(v) == [];
    IdleKeepsStart(cfg, v, acts);
    NothingToHandle(cfg, v, acts);
  }

  lemma {:induction false} NothingToHandle(cfg: Config, u: Sys, acts: seq<Action>)
    requires u.main.Idle? && Coming(u) == [] && StaysIdle(acts) && Run(cfg, u, acts).Some?
    ensures var t := Run(cfg, u, acts).value; Coming(t) == [] && (t.main.Idle? || t.main.SavingStart?)
    ensures HandlesNoLast(cfg, u, acts)
    decreases |acts|
  {
    hide Enabled, Apply, Coming;
    if acts != [] {
      var n := |acts| - 1;
      NothingToHandle(cfg, u, acts[..n]);
      var v := Run(cfg, u, acts[..n]).value;
      IdleStep(cfg, v, acts[n]);
      NothingComes(cfg, v, acts[n]);
    }
  }

  lemma NothingComes(cfg: Config, s: Sys, a: Action)
    requires Enabled(cfg, s, a) && (s.main.Idle? || s.main.SavingStart?) && Coming(s) == []
    requires !a.Load? && !a.ChooseStart? && !a.Crash?
    ensures Coming(Apply(cfg, s, a)) == [] && s.pending == None
  {
    hide EventOk, Offset, InGroup, Printed, BetweenGroups, EventAllowed;
    assert |Coming(s)| == (if s.pending.Some? then 1 else 0) + |s.pipe|;
  }
}
