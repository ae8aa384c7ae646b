/** The text behind a closing event's marker may be missing, and when no event is ever incomplete. */
module ClosingText {
  import opened Bytes
  import opened Markers
  import opened Listener
  import opened ServerLog
  import opened Protocol
  import opened ProtocolProof
  import opened ProtocolLimits
  import opened Scenarios

  lemma TextMissing(w: seq<Item>)
    requires COMMIT_TEXT !in w
    ensures !EventIn(w, {}, X(20, [Text]), 0, 1)
  {
    var b := Printed(X(20, [Text]), 0, 1);
    assert b[1] == COMMIT_TEXT;
  }

  lemma NotWhole(s: Sys)
    requires s.logs == Logs([Text]) && s.origin == Some(ORIGIN) && COMMIT_TEXT !in Written(s)
    requires s.st.sh.inProgress == Some(Checkpoint(0, 20, 0))
    ensures !Whole(s)
  {
    TextMissing(Written(s));
    assert s.logs[0][1] == X(20, [Text]);
  }

  /** The progress stands at the end of a commit whose text has not been captured yet. */
  lemma TextIsBehind(cfg: Config) returns (acts: seq<Action>, t: Sys)
    requires cfg.closingText
    ensures Init(cfg, S0(Logs([Text]))) && Run(cfg, S0(Logs([Text])), acts) == Some(t) && !Whole(t)
  {
    hide Run, Init, S0, Whole, Logs;
    LogsAllowed(cfg, [Text]);
    FirstLog([Text]);
    acts, t := Committing(cfg, Logs([Text]), 20, [Text]);
    NotWhole(t);
  }

  /** If the process dies then, the next round starts past the commit, and the text is lost. */
  lemma ClosingTextMayBeLost(cfg: Config) returns (acts: seq<Action>, t: Sys)
    requires cfg.flush && cfg.closingText
    ensures Init(cfg, S0(Logs([Text]))) && Run(cfg, S0(Logs([Text])), acts) == Some(t)
    ensures t.st.sh.seqn == Some(Checkpoint(0, 20, 0)) && t.pipe == [] && t.main.Idle? && t.logs == Logs([Text])
    ensures !Block(Written(t), Printed(t.logs[0][1], 0, 1))
  {
    hide Run, Init, S0, Logs;
    LogsAllowed(cfg, [Text]);
    FirstLog([Text]);
    acts, t := Committing(cfg, Logs([Text]), 20, [Text]);
    var all := Written(t);
    acts, t := Restart(cfg, Logs([Text]), acts, t);
    assert Written(t) <= all;
    TextMissing(Written(t));
  }

  /** Exactly when every event before a held position is whole in every run. */
  lemma WholeExactly(cfg: Config)
    ensures (forall s, acts :: Init(cfg, s) && Run(cfg, s, acts).Some? ==> Whole(Run(cfg, s, acts).value))
            <==> cfg.flush && cfg.readsHold && cfg.offsetsFit && cfg.linesFit && !cfg.closingText
  {
    hide Whole, AtLeastOnce, Init, Run;
    if cfg.Careful() && !cfg.closingText {
      forall s, acts | Init(cfg, s) && Run(cfg, s, acts).Some? ensures Whole(Run(cfg, s, acts).value) {
        CaptureIsWhole(cfg, s, acts);
      }
    } else if cfg.closingText {
      var acts, t := TextIsBehind(cfg);
    } else {
      var s0, acts, t := CarelessLoses(cfg);
      if Whole(t) {
        WholeIsMore(t);
      }
    }
  }
}
