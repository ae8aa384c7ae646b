/**
 * How far a round gets: past every transaction that the server had closed, in the files the round was
 * told of, when the round set the progress.
 */
module RoundReach {
  import opened Bytes
  import opened Decimal
  import opened Markers
  import opened Listener
  import opened ServerLog
  import opened Protocol
  import opened ProtocolProof
  import opened RoundOrder
  import opened RoundStart
  import opened RoundEnd

  /** The logs as they were some time ago. */
  ghost predicate Earlier(was: seq<seq<Event>>, logs: seq<seq<Event>>) {
    |was| <= |logs| && forall j :: 0 <= j < |was| ==> was[j] <= logs[j]
  }

  /** The marker of event `m` of file `j` has been printed, or the reader started behind it. */
  ghost predicate Passed(s: Sys, j: nat, m: nat) {
    match s.main
    case Opening(_, i, _) => j < i
    case Reading(_, i, k, rest) => j < i || (j == i && m < k && !(m == k - 1 && AllToPrint(s.logs, i, m, rest)))
    case _ => true
  }

  ghost predicate AllToPrint(logs: seq<seq<Event>>, i: nat, m: nat, rest: seq<Item>) {
    rest != [] && i < |logs| && m < |logs[i]| && |rest| == |Printed(logs[i][m], i, m)|
  }

  /** The progress once all printed lines are handled. */
  function ProgressToCome(s: Sys, start: Checkpoint<nat>): Cursor
    requires s.st.sh.inProgress.Some?
  {
    AdvanceAll(start.name, Now(s), Coming(s))
  }

  /** It is past every closing event, from the start on, that was there and has been passed. */
  ghost predicate Caught(s: Sys, was: seq<seq<Event>>, start: Checkpoint<nat>, at: Checkpoint<nat>) {
    forall j, m | 0 <= j < |was| && 0 <= m < |was[j]| && Closing(was[j][m]) && Passed(s, j, m) ::
      !Before(j, was[j][m].start, start) ==> NotAfter(Checkpoint(j, was[j][m].end, 0), at)
  }

  ghost predicate Told(s: Sys, n: nat) {
    match s.main
    case Opening(m, i, _) => m == n && i < n
    case Reading(m, i, _, _) => m == n && i < n
    case Ended(m) => m == n
    case _ => true
  }

  ghost predicate Reach(s: Sys, was: seq<seq<Event>>, start: Checkpoint<nat>) {
    && InRound(s, start) && Earlier(was, s.logs) && Told(s, |was|)
    && Caught(s, was, start, ProgressToCome(s, start).at)
  }

  lemma {:induction false} AdvanceSnoc(first: nat, cu: Cursor, lines: seq<Line<nat>>, ln: Line<nat>)
    ensures AdvanceAll(first, cu, lines + [ln]) == Advance(first, AdvanceAll(first, cu, lines), ln)
    decreases |lines|
  {
    hide Advance;
    if lines == [] {
      assert (lines + [ln])[1..] == [];
    } else {
      AdvanceSnoc(first, Advance(first, cu, lines[0]), lines[1..], ln);
      assert (lines + [ln])[1..] == lines[1..] + [ln];
    }
  }

  /** A step after which nothing more has been passed, and the progress to come is not behind. */
  lemma CaughtStays(s: Sys, t: Sys, was: seq<seq<Event>>, start: Checkpoint<nat>, a: Checkpoint<nat>,
                    b: Checkpoint<nat>)
    requires Caught(s, was, start, a) && NotAfter(a, b)
    requires forall j, m | 0 <= j < |was| && 0 <= m < |was[j]| && Closing(was[j][m]) && Passed(t, j, m) ::
      Passed(s, j, m) || Before(j, was[j][m].start, start) || NotAfter(Checkpoint(j, was[j][m].end, 0), b)
    ensures Caught(t, was, start, b)
  {
  }

  lemma ListenerKeepsReach(cfg: Config, s: Sys, a: Action, was: seq<seq<Event>>, start: Checkpoint<nat>)
    requires cfg.offsetsFit && Reach(s, was, start) && Enabled(cfg, s, a) && (a.Write? || a.FlushSome?)
    ensures Reach(Apply(cfg, s, a), was, start)
  {
    hide InRound;
    var t := Apply(cfg, s, a);
    RoundGoesOn(cfg, s, a, start);
    if a.Write? {
      WriteKeepsName(cfg, s);
    } else {
      FlushKeepsName(s, t);
    }
    NotAfterItself(ProgressToCome(s, start).at);
    hide ProgressToCome;
    CaughtStays(s, t, was, start, ProgressToCome(s, start).at, ProgressToCome(t, start).at);
  }

  lemma NotAfterItself(c: Checkpoint<nat>)
    ensures NotAfter(c, c)
  {
  }

  lemma RoundGoesOn(cfg: Config, s: Sys, a: Action, start: Checkpoint<nat>)
    requires cfg.offsetsFit && InRound(s, start) && Enabled(cfg, s, a)
    requires !a.ChooseStart? && !a.ClearRange? && !a.Crash?
    ensures InRound(Apply(cfg, s, a), start) && s.st.sh.inProgress.Some? && Apply(cfg, s, a).st.sh.inProgress.Some?
  {
    hide InRound, Apply, Enabled;
    if a.Handle? {
      HandleKeepsRound(cfg, s, start);
    } else {
      StepKeepsRound(cfg, s, a, start);
    }
    HasProgress(s, start);
    HasProgress(Apply(cfg, s, a), start);
  }

  lemma HasProgress(s: Sys, start: Checkpoint<nat>)
    requires InRound(s, start)
    ensures s.st.sh.inProgress.Some? && LogsOk(s.logs)
  {
  }

  /** Acting on a line takes it from what is coming to what is done. */
  lemma HandleKeepsReach(cfg: Config, s: Sys, was: seq<seq<Event>>, start: Checkpoint<nat>)
    requires cfg.offsetsFit && Reach(s, was, start) && Enabled(cfg, s, Handle)
    ensures Reach(Apply(cfg, s, Handle), was, start)
  {
    var t := Apply(cfg, s, Handle);
    RoundGoesOn(cfg, s, Handle, start);
    hide LogsOk, OffsetsFit, Allowed, Ascends, MainAhead, Listen, Advance;
    ListenAdvances(s.st, start.name, s.pending.value.line);
    assert Coming(s)[1..] == Coming(t);
    assert ProgressToCome(t, start) == ProgressToCome(s, start);
    hide InRound, ProgressToCome;
    NotAfterItself(ProgressToCome(s, start).at);
    CaughtStays(s, t, was, start, ProgressToCome(s, start).at, ProgressToCome(t, start).at);
  }

  /** The server, and the steps of the main thread that print nothing. */
  lemma QuietKeepsReach(cfg: Config, s: Sys, a: Action, was: seq<seq<Event>>, start: Checkpoint<nat>)
    requires cfg.offsetsFit && Reach(s, was, start) && Enabled(cfg, s, a)
    requires Grow(a) || a.NextEvent? || a.NameLast? || a.Load? || a.WaitSignalled? || a.WaitOther?
    ensures Reach(Apply(cfg, s, a), was, start)
  {
    var t := Apply(cfg, s, a);
    RoundGoesOn(cfg, s, a, start);
    HasProgress(s, start);
    InTheMiddle(s, start);
    hide InRound;
    SameComing(cfg, s, a);
    SameProgress(cfg, s, a);
    assert ProgressToCome(t, start) == ProgressToCome(s, start);
    hide ProgressToCome, Coming, AdvanceAll;
    StillEarlier(cfg, s, a, was);
    NotAfterItself(ProgressToCome(s, start).at);
    PassedStays(cfg, s, a, was);
    CaughtStays(s, t, was, start, ProgressToCome(s, start).at, ProgressToCome(t, start).at);
  }

  /** Where the main thread can be during a round. */
  lemma InTheMiddle(s: Sys, start: Checkpoint<nat>)
    requires InRound(s, start)
    ensures s.main.Opening? || s.main.Reading? || s.main.Ended? || s.main.LastSet? || s.main.Waiting? || s.main.Idle?
      || s.main.Loaded?
    ensures s.main.Reading? ==> s.main.i < |s.logs| && s.main.k <= |s.logs[s.main.i]|
    ensures s.main.Reading? && s.main.rest != [] ==>
      s.main.k > 0 && Printing(s.logs[s.main.i], s.main.i, s.main.k, s.main.rest, ProgressToCome(s, start).at)
  {
  }

  lemma SameProgress(cfg: Config, s: Sys, a: Action)
    requires Enabled(cfg, s, a)
    requires Grow(a) || a.NextEvent? || a.NameLast? || a.Load? || a.WaitSignalled? || a.WaitOther?
    ensures Apply(cfg, s, a).st.sh.inProgress == s.st.sh.inProgress && Apply(cfg, s, a).st.lo == s.st.lo
  {
    hide EventOk, Offset, InGroup, Printed, EventAllowed;
  }

  lemma StillEarlier(cfg: Config, s: Sys, a: Action, was: seq<seq<Event>>)
    requires Enabled(cfg, s, a) && Earlier(was, s.logs)
    ensures Earlier(was, Apply(cfg, s, a).logs)
  {
    hide EventOk, Offset, InGroup, Printed, EventAllowed, BetweenGroups;
  }

  lemma PassedStays(cfg: Config, s: Sys, a: Action, was: seq<seq<Event>>)
    requires Enabled(cfg, s, a) && Earlier(was, s.logs)
    requires s.main.Opening? || s.main.Reading? || s.main.Ended? || s.main.LastSet? || s.main.Waiting? || s.main.Idle?
      || s.main.Loaded?
    requires s.main.Reading? ==> s.main.i < |s.logs| && s.main.k <= |s.logs[s.main.i]|
    requires Grow(a) || a.NextEvent? || a.NameLast? || a.Load? || a.WaitSignalled? || a.WaitOther?
    ensures forall j, m | 0 <= j < |was| && 0 <= m < |was[j]| && Closing(was[j][m]) && Passed(Apply(cfg, s, a), j, m) ::
      Passed(s, j, m)
  {
    hide EventOk, Offset, InGroup, EventAllowed;
    if a.NextEvent? {
      ClosingHasLines(s.logs, s.main.i, s.main.k);
    }
  }

  lemma ClosingHasLines(logs: seq<seq<Event>>, i: nat, k: nat)
    requires i < |logs| && k < |logs[i]|
    ensures Closing(logs[i][k]) ==> Printed(logs[i][k], i, k) != []
  {
  }

  /** Lines that do not move the progress; the end of a file passes all its events. */
  lemma StillLineKeepsReach(cfg: Config, s: Sys, a: Action, was: seq<seq<Event>>, start: Checkpoint<nat>)
    requires cfg.offsetsFit && Reach(s, was, start) && Enabled(cfg, s, a)
    requires a.Chat? || a.CloseFile? || a.AnnounceLast?
    ensures Reach(Apply(cfg, s, a), was, start)
  {
    hide Printed, Offset, InGroup, EventOk;
    var t := Apply(cfg, s, a);
    var ln := match a case Chat(line) => line case AnnounceLast => Last case _ => End;
    RoundGoesOn(cfg, s, a, start);
    HasProgress(s, start);
    hide InRound, Ascends;
    SendComing(s, Note(ln), t.main);
    assert Coming(t) == Coming(s) + [ln];
    AdvanceSnoc(start.name, Now(s), Coming(s), ln);
    assert ProgressToCome(t, start).at == ProgressToCome(s, start).at;
    hide ProgressToCome, Coming, AdvanceAll;
    NotAfterItself(ProgressToCome(s, start).at);
    CaughtStays(s, t, was, start, ProgressToCome(s, start).at, ProgressToCome(t, start).at);
  }

  /** A file is opened behind what was passed before: at the start, or at its header. */
  lemma OpenKeepsReach(cfg: Config, s: Sys, k: nat, was: seq<seq<Event>>, start: Checkpoint<nat>)
    requires cfg.offsetsFit && Reach(s, was, start) && Enabled(cfg, s, Open(k))
    ensures Reach(Apply(cfg, s, Open(k)), was, start)
  {
    var t, i, log := Apply(cfg, s, Open(k)), s.main.i, s.logs[s.main.i];
    RoundGoesOn(cfg, s, Open(k), start);
    HasProgress(s, start);
    OpenedAt(s, start);
    hide InRound, Ascends;
    SendComing(s, Note(Start(i)), t.main);
    assert Coming(t) == Coming(s) + [Start(i)];
    AdvanceSnoc(start.name, Now(s), Coming(s), Start(i));
    var a, b := ProgressToCome(s, start).at, ProgressToCome(t, start).at;
    assert NotAfter(a, b);
    forall j, m | 0 <= j < |was| && 0 <= m < |was[j]| && Closing(was[j][m]) && Passed(t, j, m)
      ensures Passed(s, j, m) || Before(j, was[j][m].start, start)
    {
      if j == i {
        BeforeTheStart(log, k, m, start, i);
      }
    }
    CaughtStays(s, t, was, start, a, b);
  }

  lemma OpenedAt(s: Sys, start: Checkpoint<nat>)
    requires InRound(s, start) && s.main.Opening?
    ensures start.name <= s.main.i && NotAfter(ProgressToCome(s, start).at, Checkpoint(s.main.i, s.main.pos, 0))
    ensures s.main.pos == (if s.main.i == start.name then start.pos else BIN_LOG_HEADER_SIZE)
  {
  }

  lemma BeforeTheStart(log: seq<Event>, k: nat, m: nat, start: Checkpoint<nat>, i: nat)
    requires LogOk(log) && k <= |log| && m < k && start.name <= i
    requires Offset(log, k) == if i == start.name then start.pos else BIN_LOG_HEADER_SIZE
    ensures i == start.name && Before(i, log[m].start, start)
  {
    OffsetsIncrease(log, 0, k);
    OffsetsIncrease(log, m, k);
    assert EventOk(log, m);
  }

  /** The marker of a closing event takes the progress to its end. */
  lemma EmitKeepsReach(cfg: Config, s: Sys, was: seq<seq<Event>>, start: Checkpoint<nat>)
    requires cfg.offsetsFit && Reach(s, was, start) && Enabled(cfg, s, Emit)
    ensures Reach(Apply(cfg, s, Emit), was, start)
  {
    var t, m, it := Apply(cfg, s, Emit), s.main, s.main.rest[0];
    RoundGoesOn(cfg, s, Emit, start);
    HasProgress(s, start);
    InTheMiddle(s, start);
    ReaderIsThere(s, start);
    var end := ProgressToCome(s, start);
    LineAdvances(s.logs, start, m.i, m.k, m.rest, end);
    hide InRound, Ascends, Advance, Printing;
    SendComing(s, it, t.main);
    assert Coming(t) == Coming(s) + [it.line];
    AdvanceSnoc(start.name, Now(s), Coming(s), it.line);
    assert ProgressToCome(t, start) == Advance(start.name, end, it.line);
    hide ProgressToCome, Coming, AdvanceAll;
    GoesForward(s.logs, start, end.at, ProgressToCome(t, start).at);
    forall j, n | 0 <= j < |was| && 0 <= n < |was[j]| && Closing(was[j][n]) && Passed(t, j, n)
      ensures Passed(s, j, n) || NotAfter(Checkpoint(j, was[j][n].end, 0), ProgressToCome(t, start).at)
    {
      if !Passed(s, j, n) {
        assert j == m.i && n == m.k - 1 && was[j][n] == s.logs[j][n];
        MarkerReaches(s.logs, start, j, n, m.rest, end);
      }
    }
    CaughtStays(s, t, was, start, end.at, ProgressToCome(t, start).at);
  }

  lemma ReaderIsThere(s: Sys, start: Checkpoint<nat>)
    requires InRound(s, start) && s.main.Reading?
    ensures ProgressToCome(s, start).name == s.main.i && OffsetsFit(s.logs)
  {
  }

  lemma GoesForward(logs: seq<seq<Event>>, start: Checkpoint<nat>, a: Checkpoint<nat>, b: Checkpoint<nat>)
    requires GoesOn(logs, start, a, b)
    ensures NotAfter(a, b)
  {
  }

  lemma MarkerReaches(logs: seq<seq<Event>>, start: Checkpoint<nat>, i: nat, m: nat, rest: seq<Item>, end: Cursor)
    requires OffsetsFit(logs) && i < |logs| && m < |logs[i]| && Closing(logs[i][m]) && end.name == i
    requires rest != [] && rest == Printed(logs[i][m], i, m)
    ensures Advance(start.name, end, rest[0].line).at == Checkpoint(i, logs[i][m].end, 0)
  {
    assert rest[0].line == MarkerOf(logs[i][m])[0];
  }

  lemma StepKeepsReach(cfg: Config, s: Sys, a: Action, was: seq<seq<Event>>, start: Checkpoint<nat>)
    requires cfg.offsetsFit && cfg.linesFit && cfg.readsHold && Reach(s, was, start) && Enabled(cfg, s, a)
    requires !a.ChooseStart? && !a.ClearRange? && !a.Crash?
    ensures Reach(Apply(cfg, s, a), was, start)
  {
    InTheMiddle(s, start);
    hide Reach, Apply, InRound;
    match a
    case Write => ListenerKeepsReach(cfg, s, a, was, start);
    case FlushSome(_) => ListenerKeepsReach(cfg, s, a, was, start);
    case Handle => HandleKeepsReach(cfg, s, was, start);
    case Open(k) => OpenKeepsReach(cfg, s, k, was, start);
    case Emit => EmitKeepsReach(cfg, s, was, start);
    case Chat(_) => StillLineKeepsReach(cfg, s, a, was, start);
    case CloseFile => StillLineKeepsReach(cfg, s, a, was, start);
    case AnnounceLast => StillLineKeepsReach(cfg, s, a, was, start);
    case Append(_) => QuietKeepsReach(cfg, s, a, was, start);
    case NewFile => QuietKeepsReach(cfg, s, a, was, start);
    case NextEvent => QuietKeepsReach(cfg, s, a, was, start);
    case NameLast => QuietKeepsReach(cfg, s, a, was, start);
    case Load => QuietKeepsReach(cfg, s, a, was, start);
    case WaitSignalled => QuietKeepsReach(cfg, s, a, was, start);
    case WaitOther => QuietKeepsReach(cfg, s, a, was, start);
  }

  lemma {:induction false} RunKeepsReach(cfg: Config, s: Sys, acts: seq<Action>, was: seq<seq<Event>>,
                                         start: Checkpoint<nat>)
    requires cfg.offsetsFit && cfg.linesFit && cfg.readsHold && Reach(s, was, start)
    requires Steady(acts) && Run(cfg, s, acts).Some?
    ensures Reach(Run(cfg, s, acts).value, was, start)
    decreases |acts|
  {
    hide Reach, Enabled, Apply;
    if acts != [] {
      var most := acts[..|acts| - 1];
      RunKeepsReach(cfg, s, most, was, start);
      StepKeepsReach(cfg, Run(cfg, s, most).value, acts[|acts| - 1], was, start);
    }
  }

  /** Nothing has been passed when the round sets the progress. */
  lemma ReachBegins(cfg: Config, s: Sys)
    requires cfg.offsetsFit && Sound(cfg, s) && CleanStart(s) && OnCourse(s)
    ensures Reach(Apply(cfg, s, SetProgress), s.logs[..s.main.n], FirstPosition(s))
  {
    RoundBegins(cfg, s);
    hide LogsOk, InRound, EventsAllowed, CleanStart, Coming, AdvanceAll;
  }

  /** Past every transaction closed in the first `n` files, from `start` on. */
  ghost predicate PastAllClosed(logs: seq<seq<Event>>, n: nat, start: Checkpoint<nat>, c: Checkpoint<nat>)
    requires n <= |logs|
  {
    forall j, m | 0 <= j < n && 0 <= m < |logs[j]| && Closing(logs[j][m]) ::
      !Before(j, logs[j][m].start, start) ==> NotAfter(Checkpoint(j, logs[j][m].end, 0), c)
  }

  /**
   * A round whose end is signalled has got past every transaction that was closed when it set the
   * progress, in all files it was told of; and the next round starts there.
   */
  lemma RoundCatchesUp(cfg: Config, s0: Sys, before: seq<Action>, acts: seq<Action>)
    requires cfg.signalled && cfg.offsetsFit && cfg.linesFit && cfg.readsHold && IsRound(cfg, s0, before, acts)
    requires var s := Run(cfg, s0, before).value;
      var v := Run(cfg, Apply(cfg, s, SetProgress), acts).value;
      v.main.Waiting? && v.st.sh.endEvent
    ensures var s := Run(cfg, s0, before).value;
      var v := Run(cfg, Apply(cfg, s, SetProgress), acts).value;
      && s.main.n <= |s.logs| && v.st.sh.seqn.Some?
      && PastAllClosed(s.logs, s.main.n, FirstPosition(s), v.st.sh.seqn.value)
  {
    hide Init, Reach, Ending, Enabled, Apply;
    var s := Run(cfg, s0, before).value;
    var t := SetsProgress(cfg, s);
    RunIsSound(cfg, s0, before);
    RunKeepsEnding(cfg, s0, before);
    SignalledRoundsStartClean(cfg, s0, before);
    IsOnCourse(s);
    ReachBegins(cfg, s);
    RunKeepsReach(cfg, t, acts, s.logs[..s.main.n], FirstPosition(s));
    WholeRun(cfg, s0, before, s, t, acts);
    RunKeepsEnding(cfg, s0, before + [SetProgress] + acts);
    AllCaught(Run(cfg, t, acts).value, s.logs, s.main.n, FirstPosition(s));
  }

  lemma SetsProgress(cfg: Config, s: Sys) returns (t: Sys)
    requires s.main.Announced?
    ensures Enabled(cfg, s, SetProgress) && t == Apply(cfg, s, SetProgress)
  {
    t := Apply(cfg, s, SetProgress);
  }

  lemma IsOnCourse(s: Sys)
    requires Ending(s)
    ensures OnCourse(s)
  {
  }

  lemma WholeRun(cfg: Config, s0: Sys, before: seq<Action>, s: Sys, t: Sys, acts: seq<Action>)
    requires Run(cfg, s0, before) == Some(s) && Enabled(cfg, s, SetProgress) && t == Apply(cfg, s, SetProgress)
    requires Run(cfg, t, acts).Some?
    ensures Run(cfg, s0, before + [SetProgress] + acts) == Run(cfg, t, acts)
  {
    var all := before + [SetProgress];
    assert all[..|all| - 1] == before;
    assert Run(cfg, s0, all) == Some(t);
    RunConcat(cfg, s0, all, acts);
  }

  lemma AllCaught(v: Sys, logs: seq<seq<Event>>, n: nat, start: Checkpoint<nat>)
    requires n <= |logs| && Reach(v, logs[..n], start) && Ending(v) && v.main.Waiting? && v.st.sh.endEvent
    ensures v.st.sh.seqn.Some? && PastAllClosed(logs, n, start, v.st.sh.seqn.value)
  {
    hide InRound, LogsOk;
    HasProgress(v, start);
    assert Coming(v) == [];
    assert ProgressToCome(v, start).at == v.st.sh.inProgress.value;
    forall j, m | 0 <= j < n && 0 <= m < |logs[j]| && Closing(logs[j][m]) && !Before(j, logs[j][m].start, start)
      ensures NotAfter(Checkpoint(j, logs[j][m].end, 0), v.st.sh.seqn.value)
    {
      assert logs[..n][j][m] == logs[j][m] && Passed(v, j, m);
    }
  }
}
