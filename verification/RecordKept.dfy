/** There is a record on disk from the first round on, and a restart reads on from it. */
module RecordKept {
  import opened Bytes
  import opened Markers
  import opened Listener
  import opened ServerLog
  import opened Protocol
  import opened ProtocolProof

  /** A chosen start is saved before a round sets out from it, and saved positions only replace it. */
  ghost predicate Recorded(s: Sys) {
    && ProgressKnown(s)
    && (s.st.sh.seqn.Some? && !s.main.SavingStart? ==> s.st.sh.xai.Some?)
    && (s.st.sh.inProgress.Some? ==> s.st.sh.xai.Some?)
    && (s.st.sh.inProgress == None ==> !s.st.lo.data)
  }

  lemma HandleKeepsRecord(cfg: Config, s: Sys)
    requires Recorded(s) && Enabled(cfg, s, Handle)
    ensures Recorded(Apply(cfg, s, Handle))
  {
  }

  lemma StepKeepsRecord(cfg: Config, s: Sys, a: Action)
    requires Recorded(s) && Enabled(cfg, s, a)
    ensures Recorded(Apply(cfg, s, a))
  {
    hide EventOk, EventAllowed, Offset, InGroup, Printed, BetweenGroups, Listen;
    if a.Handle? {
      HandleKeepsRecord(cfg, s);
    }
  }

  lemma {:induction false} RunKeepsRecord(cfg: Config, s: Sys, acts: seq<Action>)
    requires Init(cfg, s) && Run(cfg, s, acts).Some?
    ensures Recorded(Run(cfg, s, acts).value)
    decreases |acts|
  {
    hide Recorded, Enabled, Apply;
    if acts == [] {
      StartsRecorded(cfg, s);
    } else {
      RunKeepsRecord(cfg, s, acts[..|acts| - 1]);
      StepKeepsRecord(cfg, Run(cfg, s, acts[..|acts| - 1]).value, acts[|acts| - 1]);
    }
  }

  lemma StartsRecorded(cfg: Config, s: Sys)
    requires Init(cfg, s)
    ensures Recorded(s)
  {
  }

  /** A round is under way: its start has been read, and the main thread has not come back. */
  predicate InARound(m: Main) {
    !m.Idle? && !m.SavingStart?
  }

  /** In every run, whatever goes wrong in it, no round is under way without a record on disk. */
  lemma RoundsAreRecorded(cfg: Config, s: Sys, acts: seq<Action>)
    requires Init(cfg, s) && Run(cfg, s, acts).Some? && InARound(Run(cfg, s, acts).value.main)
    ensures Run(cfg, s, acts).value.st.sh.xai.Some?
  {
    hide Init, Enabled, Apply;
    RunKeepsRecord(cfg, s, acts);
  }

  /**
   * A process that dies during a round and is started again chooses no new start: its next round can
   * begin, and begins where the record stood.
   */
  lemma RestartReadsOn(cfg: Config, s: Sys, acts: seq<Action>, lo: Local<nat>)
    requires cfg.Careful() && Init(cfg, s) && Run(cfg, s, acts).Some? && FreshThread(lo)
    requires InARound(Run(cfg, s, acts).value.main)
    ensures var t := Run(cfg, s, acts).value;
      && t.st.sh.xai.Some?
      && Run(cfg, s, acts + [Crash(lo), Load]).Some?
      && var u := Run(cfg, s, acts + [Crash(lo), Load]).value;
        u.main == Loaded(|t.logs|, t.st.sh.xai.value.name, t.st.sh.xai.value.pos)
    ensures var t := Run(cfg, s, acts + [Crash(lo)]).value;
      forall c :: !Enabled(cfg, t, ChooseStart(c))
  {
    hide Init, Enabled, Apply, AtLeastOnce;
    var t := Run(cfg, s, acts).value;
    RoundsAreRecorded(cfg, s, acts);
    CaptureIsAtLeastOnce(cfg, s, acts);
    RecordIsInALog(t);
    CrashThenLoad(cfg, t, lo);
    var first, both := acts + [Crash(lo)], acts + [Crash(lo), Load];
    assert first[..|first| - 1] == acts && both[..|both| - 1] == first;
  }

  lemma CrashThenLoad(cfg: Config, t: Sys, lo: Local<nat>)
    requires t.st.sh.xai.Some? && t.st.sh.xai.value.name < |t.logs| && FreshThread(lo)
    ensures Enabled(cfg, t, Crash(lo))
    ensures var v := Apply(cfg, t, Crash(lo));
      && (forall c :: !Enabled(cfg, v, ChooseStart(c)))
      && Enabled(cfg, v, Load)
      && Apply(cfg, v, Load).main == Loaded(|t.logs|, t.st.sh.xai.value.name, t.st.sh.xai.value.pos)
  {
  }

  lemma RecordIsInALog(s: Sys)
    requires AtLeastOnce(s) && s.st.sh.xai.Some?
    ensures s.st.sh.xai.value.name < |s.logs|
  {
  }
}
