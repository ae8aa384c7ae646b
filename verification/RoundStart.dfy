/**
 * How a round finds the pipe. If the end of every round is awaited until it is signalled, nothing of
 * an earlier round is left when the next one starts, on any run.
 */
module RoundStart {
  import opened Bytes
  import opened Markers
  import opened Listener
  import opened ServerLog
  import opened Protocol
  import opened ProtocolProof
  import opened RoundOrder

  predicate NoLast(lines: seq<Line<nat>>) {
    forall i :: 0 <= i < |lines| ==> !lines[i].Last?
  }

  /** The last line of a round is its Last line, and the event is signalled when that is handled. */
  ghost predicate Calm(s: Sys) {
    var coming := Coming(s);
    match s.main
    case Waiting =>
      && (s.st.sh.endEvent ==> coming == [])
      && (coming != [] ==> coming[|coming| - 1].Last? && NoLast(coming[..|coming| - 1]))
    case Announced(_, _, _) => !s.st.sh.endEvent && forall i :: 0 <= i < |coming| ==> coming[i].First?
    case Opening(_, _, _) => !s.st.sh.endEvent && NoLast(coming)
    case Reading(_, _, _, rest) => !s.st.sh.endEvent && NoLast(coming) && NoLast(LinesOf(rest))
    case Ended(_) => !s.st.sh.endEvent && NoLast(coming)
    case LastSet => !s.st.sh.endEvent && NoLast(coming)
    case _ => !s.st.sh.endEvent && coming == []
  }

  /** Only a Last line signals. */
  lemma OnlyLastSignals(st: State<nat>, ln: Line<nat>)
    requires !st.sh.endEvent && !ln.Last?
    ensures !Listen(st, ln).sh.endEvent
  {
  }

  lemma ListenerStaysCalm(cfg: Config, s: Sys, a: Action)
    requires Calm(s) && Enabled(cfg, s, a) && (a.Write? || a.Drop? || a.FlushSome?)
    ensures Calm(Apply(cfg, s, a))
  {
    var t := Apply(cfg, s, a);
    if a.Write? {
      assert Coming(t) == Coming(s);
    } else if a.Drop? {
      assert Coming(s)[0] == s.pipe[0].line;
      assert Coming(t) == [Text] + Coming(s)[1..];
    } else {
      assert Coming(t) == Coming(s);
    }
  }

  lemma HandleStaysCalm(cfg: Config, s: Sys)
    requires Calm(s) && Enabled(cfg, s, Handle)
    ensures Calm(Apply(cfg, s, Handle))
  {
    hide Listen;
    var t, coming := Apply(cfg, s, Handle), Coming(s);
    assert Coming(t) == coming[1..];
    if !coming[0].Last? {
      OnlyLastSignals(s.st, coming[0]);
    }
    if s.main.Waiting? && |coming| > 1 {
      assert coming[..|coming| - 1][0] == coming[0];
      assert Coming(t)[..|coming| - 2] == coming[..|coming| - 1][1..];
    }
  }

  lemma EventHasNoLast(logs: seq<seq<Event>>, i: nat, k: nat)
    requires LogsOk(logs) && i < |logs| && k < |logs[i]|
    ensures NoLast(LinesOf(Printed(logs[i][k], i, k)))
  {
    EventBounds(logs, i, k);
    var e := logs[i][k];
    var all := LinesOf(Printed(e, i, k));
    forall j | 0 <= j < |all| ensures !all[j].Last? {
      if j >= |MarkerOf(e)| {
        assert all[j] == e.text[j - |MarkerOf(e)|];
        assert !all[j].IsMarker();
      }
    }
  }

  lemma SendComing(s: Sys, it: Item, m: Main)
    ensures Coming(Send(s, it).(main := m)) == Coming(s) + [it.line]
  {
  }

  /** Steps of the main thread that print a line. */
  lemma PrintStaysCalm(cfg: Config, s: Sys, a: Action)
    requires Calm(s) && Enabled(cfg, s, a)
    requires a.Announce? || a.Open? || a.Chat? || a.Emit? || a.CloseFile? || a.FailFile? || a.AnnounceLast?
    ensures Calm(Apply(cfg, s, a))
  {
    hide InGroup, Offset;
    var t := Apply(cfg, s, a);
    var it := match a
      case Announce => Note(First(s.main.i))
      case Open(_) => Note(Start(s.main.i))
      case Chat(line) => Note(line)
      case Emit => s.main.rest[0]
      case AnnounceLast => Note(Last)
      case _ => Note(End);
    SendComing(s, it, t.main);
    assert Coming(t) == Coming(s) + [it.line];
    if a.Emit? {
      assert LinesOf(s.main.rest)[0] == it.line;
      assert LinesOf(t.main.rest) == LinesOf(s.main.rest)[1..];
    } else if a.AnnounceLast? {
      assert Coming(t)[..|Coming(t)| - 1] == Coming(s);
    }
  }

  /** The main thread between two rounds, where nothing is coming. */
  predicate BetweenRounds(a: Action) {
    a.ChooseStart? || a.SaveStart? || a.Load? || a.ClearRange? || a.NameFirst? || a.WaitSignalled? || a.WaitOther?
  }

  lemma BetweenRoundsStaysCalm(cfg: Config, s: Sys, a: Action)
    requires cfg.signalled && Calm(s) && Enabled(cfg, s, a) && BetweenRounds(a)
    ensures Calm(Apply(cfg, s, a))
  {
    hide BetweenGroups, Coming;
    SameComing(cfg, s, a);
  }

  lemma SameComing(cfg: Config, s: Sys, a: Action)
    requires Enabled(cfg, s, a) && (BetweenRounds(a) || a.SetProgress? || a.NextEvent? || a.NameLast? || Grow(a))
    ensures Coming(Apply(cfg, s, a)) == Coming(s)
  {
    hide EventOk, Offset, InGroup, Printed, BetweenGroups;
  }

  predicate Grow(a: Action) {
    a.Append? || a.NewFile?
  }

  /** The server, a crash, and the steps within a round that print nothing. */
  lemma QuietStaysCalm(cfg: Config, s: Sys, a: Action)
    requires LogsOk(s.logs) && Calm(s) && Enabled(cfg, s, a)
    requires Grow(a) || a.SetProgress? || a.NextEvent? || a.NameLast? || a.Crash?
    ensures Calm(Apply(cfg, s, a))
  {
    hide LogsOk, InGroup, Offset, EventOk, Printed;
    if a.Crash? {
      assert Coming(Apply(cfg, s, a)) == [];
    } else {
      SameComing(cfg, s, a);
      hide Coming;
      if a.NextEvent? {
        EventHasNoLast(s.logs, s.main.i, s.main.k);
      }
    }
  }

  lemma StepStaysCalm(cfg: Config, s: Sys, a: Action)
    requires cfg.signalled && Sound(cfg, s) && Calm(s) && Enabled(cfg, s, a)
    ensures Calm(Apply(cfg, s, a))
  {
    hide Calm, Apply, Enabled, LogsOk, EventsAllowed;
    if a.Write? || a.Drop? || a.FlushSome? {
      ListenerStaysCalm(cfg, s, a);
    } else if a.Handle? {
      HandleStaysCalm(cfg, s);
    } else if a.Announce? || a.Open? || a.Chat? || a.Emit? || a.CloseFile? || a.FailFile? || a.AnnounceLast? {
      PrintStaysCalm(cfg, s, a);
    } else if BetweenRounds(a) {
      BetweenRoundsStaysCalm(cfg, s, a);
    } else {
      QuietStaysCalm(cfg, s, a);
    }
  }

  lemma InitIsCalm(cfg: Config, s: Sys)
    requires Init(cfg, s)
    ensures Calm(s)
  {
  }

  lemma {:induction false} RunStaysCalm(cfg: Config, s: Sys, acts: seq<Action>)
    requires cfg.signalled && Init(cfg, s) && Run(cfg, s, acts).Some?
    ensures Calm(Run(cfg, s, acts).value)
    decreases |acts|
  {
    hide Calm, Init, Enabled, Apply, Sound;
    if acts == [] {
      InitIsCalm(cfg, s);
    } else {
      var most := acts[..|acts| - 1];
      RunStaysCalm(cfg, s, most);
      RunIsSound(cfg, s, most);
      StepStaysCalm(cfg, Run(cfg, s, most).value, acts[|acts| - 1]);
    }
  }

  /** Every round that waited for the signal of the one before starts clean. */
  lemma SignalledRoundsStartClean(cfg: Config, s: Sys, acts: seq<Action>)
    requires cfg.signalled && Init(cfg, s) && Run(cfg, s, acts).Some?
    requires Run(cfg, s, acts).value.main.Announced?
    ensures CleanStart(Run(cfg, s, acts).value)
  {
    hide Init, Run;
    RunStaysCalm(cfg, s, acts);
  }

  /** A round: a run up to where it is about to set the progress, and what happens until the next. */
  ghost predicate IsRound(cfg: Config, s0: Sys, before: seq<Action>, acts: seq<Action>) {
    && Init(cfg, s0) && Run(cfg, s0, before).Some? && Run(cfg, s0, before).value.main.Announced?
    && Steady(acts) && Run(cfg, Apply(cfg, Run(cfg, s0, before).value, SetProgress), acts).Some?
  }

  /** What the round saves never goes back, not even behind its start, and is between transactions. */
  ghost predicate RoundAscends(cfg: Config, s0: Sys, before: seq<Action>, acts: seq<Action>)
    requires IsRound(cfg, s0, before, acts)
  {
    var s := Run(cfg, s0, before).value;
    var t := Apply(cfg, s, SetProgress);
    && Ascending(Saves(cfg, t, acts), FirstPosition(s))
    && AllAllowed(Run(cfg, t, acts).value.logs, FirstPosition(s), Saves(cfg, t, acts))
  }

  lemma SignalledRoundsAscend(cfg: Config, s0: Sys, before: seq<Action>, acts: seq<Action>)
    requires cfg.signalled && cfg.offsetsFit && IsRound(cfg, s0, before, acts)
    ensures RoundAscends(cfg, s0, before, acts)
  {
    hide Init, CleanStart, Ascending, AllAllowed;
    SignalledRoundsStartClean(cfg, s0, before);
    SavedPositionsAscend(cfg, s0, before, acts);
  }
}
