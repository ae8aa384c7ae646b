/** The dump of a log and the reader's steps in the state machine are about the same file. */
module DumpedLog {
  import opened Bytes
  import opened Listener
  import opened ServerLog
  import opened Protocol
  import DumpStream

  /** One file, as it is sent and as the state machine has it. */
  ghost predicate SameFile(file: seq<DumpStream.SentEvent>, log: seq<Event>) {
    |file| == |log| && forall k :: 0 <= k < |log| ==> SameEvent(file[k], log[k])
  }

  predicate SameEvent(sent: DumpStream.SentEvent, e: Event) {
    sent.size == e.end - e.start && sent.logPos == e.end && (!sent.kind.Other? ==> e.kind.Other?)
  }

  lemma {:induction false} SameOffsets(file: seq<DumpStream.SentEvent>, log: seq<Event>, k: nat)
    requires LogOk(log) && SameFile(file, log) && k <= |log|
    ensures DumpStream.StartOf(file, k) == Offset(log, k)
  {
    if k != 0 {
      SameOffsets(file, log, k - 1);
      assert EventOk(log, k - 1) && SameEvent(file[k - 1], log[k - 1]);
    }
  }

  /**
   * When the reader opens a file before event `k`, the dump from that position hands out the events
   * it prints from then on, each at its offset and with its end.
   */
  lemma DumpIsWhatIsPrinted(cfg: Config, s: Sys, k: nat, file: seq<DumpStream.SentEvent>, i: nat)
    requires LogsOk(s.logs) && Enabled(cfg, s, Open(k)) && k + i < |s.logs[s.main.i]|
    requires DumpStream.FileOk(file) && SameFile(file, s.logs[s.main.i])
    ensures DumpStream.StartOf(file, k) == s.main.pos
    ensures var h, e := DumpStream.FromEvent(file, k), s.logs[s.main.i][k + i];
      |h| == |file| - k && SameEvent(h[i].ev, e) && h[i].pos == e.start && h[i].ev.logPos == e.end
  {
    var log := s.logs[s.main.i];
    assert LogOk(log) && EventOk(log, k + i);
    SameOffsets(file, log, k);
    SameOffsets(file, log, k + i);
    DumpStream.OffsetsAreTrue(file, k, i);
  }

  /** A position is before one event only, so the reader has no choice where to start. */
  lemma OpeningIsDetermined(cfg: Config, s: Sys, k: nat, k': nat)
    requires LogsOk(s.logs) && Enabled(cfg, s, Open(k)) && Enabled(cfg, s, Open(k'))
    ensures k == k'
  {
    var log := s.logs[s.main.i];
    if k < k' {
      OffsetsIncrease(log, k, k');
    } else if k' < k {
      OffsetsIncrease(log, k', k);
    }
  }
}
