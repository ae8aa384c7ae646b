/** Reading one binary log from the server: which offset each event is reported at. */
module DumpStream {
  import opened Bytes

  datatype EventType = Rotate | FormatDescription | Other

  /** An event as the server sends it; `logPos` is the end position written in its header. */
  datatype SentEvent = SentEvent(kind: EventType, when: nat, ident: string, size: nat, logPos: nat)

  /** An event packet is one byte longer than the event; the end of the data has no event. */
  datatype Packet = Data(ev: SentEvent) | EndOfData

  datatype Handed = Handed(ev: SentEvent, pos: nat)

  function StartOf(file: seq<SentEvent>, k: nat): nat
    requires k <= |file|
  {
    if k == 0 then BIN_LOG_HEADER_SIZE else StartOf(file, k - 1) + file[k - 1].size
  }

  /** A log file: a format event first and nowhere else, real rotations dated, end positions true. */
  ghost predicate FileOk(file: seq<SentEvent>) {
    && file != []
    && forall k :: 0 <= k < |file| ==> SentOk(file, k)
  }

  ghost predicate SentOk(file: seq<SentEvent>, k: nat)
    requires k < |file|
  {
    && file[k].size > 0
    && (file[k].kind.FormatDescription? <==> k == 0)
    && (file[k].kind.Rotate? ==> file[k].when != 0)
    && file[k].logPos == StartOf(file, k) + file[k].size
  }

  function Packets(events: seq<SentEvent>): seq<Packet> {
    seq(|events|, i requires 0 <= i < |events| => Data(events[i]))
  }

  predicate FakeRotate(p: Packet) {
    p.Data? && p.ev.kind.Rotate? && p.ev.when == 0
  }

  /** What ends a dump: the end of the data, or the rotation to another log. */
  predicate Ends(p: Packet, logName: string) {
    p.EndOfData? || (FakeRotate(p) && p.ev.ident != logName)
  }

  /**
   * The packets for a dump that starts before event `k`: a made-up rotation to the log itself, the
   * log's format event when the start is past it, the events, and an ending.
   */
  ghost predicate IsDump(packets: seq<Packet>, logName: string, file: seq<SentEvent>, k: nat)
    requires k <= |file|
  {
    && |packets| >= 2
    && FakeRotate(packets[0]) && packets[0].ev.ident == logName
    && Ends(packets[|packets| - 1], logName)
    && packets[1..|packets| - 1] == Packets(Sent(file, k))
  }

  function Sent(file: seq<SentEvent>, k: nat): seq<SentEvent>
    requires k <= |file|
  {
    (if k == 0 || file == [] then [] else [file[0]]) + file[k..]
  }

  /** Every event from `k` on with its true offset. */
  function FromEvent(file: seq<SentEvent>, k: nat): seq<Handed>
    requires k <= |file|
    decreases |file| - k
  {
    if k == |file| then [] else [Handed(file[k], StartOf(file, k))] + FromEvent(file, k + 1)
  }

  /** What is handed to the event handler: the format event sent again, then the events. */
  function Expected(file: seq<SentEvent>, k: nat): seq<Handed>
    requires k <= |file|
  {
    (if k == 0 || file == [] then [] else [Handed(file[0], StartOf(file, k))]) + FromEvent(file, k)
  }

  /**
   * The read loop. `stop` is the handler's answer: it may end the dump at any event. What it was
   * given is exactly what is expected, up to the event it stopped at.
   */
  method Dump(logName: string, startPos: nat, packets: seq<Packet>, stop: Handed -> bool,
              ghost file: seq<SentEvent>, ghost k: nat) returns (handed: seq<Handed>)
    requires FileOk(file) && k <= |file| && startPos == StartOf(file, k)
    requires IsDump(packets, logName, file, k)
    ensures handed <= Expected(file, k)
    ensures forall i :: 0 <= i < |handed| - 1 ==> !stop(handed[i])
    ensures handed == Expected(file, k) || (handed != [] && stop(handed[|handed| - 1]))
  {
    handed := [];
    var oldOff: nat := startPos;
    var n := 0;
    ghost var sent := Sent(file, k);
    while n < |packets|
      invariant 0 <= n < |packets|
      invariant n == 0 ==> handed == [] && oldOff == startPos
      invariant n > 0 ==> Upto(file, k, n - 1, handed, oldOff)
      invariant forall i :: 0 <= i < |handed| ==> !stop(handed[i])
    {
      var p := packets[n];
      if p.EndOfData? {
        break;
      }
      var ev := p.ev;
      var len := ev.size + 1;
      if 0 < n < |packets| - 1 {
        assert p == packets[1..|packets| - 1][n - 1] == Packets(sent)[n - 1];
        SentIsReal(file, k, n - 1);
      }
      if ev.kind.Rotate? && ev.when == 0 {
        len := 1;
        if ev.ident != logName {
          break;
        }
        assert n == 0;
      } else {
        if ev.kind.FormatDescription? && oldOff != BIN_LOG_HEADER_SIZE {
          len := 1;
        }
        Advance(file, k, n - 1, handed, oldOff);
        handed := handed + [Handed(ev, oldOff)];
        if stop(handed[|handed| - 1]) {
          UptoIsPrefix(file, k, n, handed, oldOff + len - 1);
          return;
        }
      }
      oldOff := oldOff + len - 1;
      n := n + 1;
    }
    assert n == |packets| - 1;
    UptoIsPrefix(file, k, n - 1, handed, oldOff);
  }

  /** After `j` of the sent events: what was handed, and the running offset. */
  ghost predicate Upto(file: seq<SentEvent>, k: nat, j: nat, handed: seq<Handed>, oldOff: nat)
    requires k <= |file|
  {
    && j <= |Sent(file, k)| && |handed| == j <= |Expected(file, k)|
    && handed == Expected(file, k)[..j]
    && oldOff == if j < |Expected(file, k)| then Expected(file, k)[j].pos else StartOf(file, |file|)
  }

  lemma {:induction false} FromEventAt(file: seq<SentEvent>, k: nat, i: nat)
    requires k + i < |file|
    ensures |FromEvent(file, k)| == |file| - k
    ensures FromEvent(file, k)[i] == Handed(file[k + i], StartOf(file, k + i))
    decreases i
  {
    FromEventLength(file, k);
    if i != 0 {
      FromEventAt(file, k + 1, i - 1);
    }
  }

  lemma {:induction false} FromEventLength(file: seq<SentEvent>, k: nat)
    requires k <= |file|
    ensures |FromEvent(file, k)| == |file| - k
    decreases |file| - k
  {
    if k < |file| {
      FromEventLength(file, k + 1);
    }
  }

  lemma SentIsReal(file: seq<SentEvent>, k: nat, j: nat)
    requires FileOk(file) && k <= |file| && j < |Sent(file, k)|
    ensures !(Sent(file, k)[j].kind.Rotate? && Sent(file, k)[j].when == 0)
  {
    assert SentOk(file, 0);
    var i := if k == 0 then j else if j == 0 then 0 else k + j - 1;
    assert SentOk(file, i) && Sent(file, k)[j] == file[i];
  }

  /** The offset that is handed out with the next event is the expected one. */
  lemma Advance(file: seq<SentEvent>, k: nat, j: nat, handed: seq<Handed>, oldOff: nat)
    requires FileOk(file) && k <= |file| && j < |Sent(file, k)| && Upto(file, k, j, handed, oldOff)
    ensures var ev := Sent(file, k)[j];
      Upto(file, k, j + 1, handed + [Handed(ev, oldOff)],
           if ev.kind.FormatDescription? && oldOff != BIN_LOG_HEADER_SIZE then oldOff else oldOff + ev.size)
  {
    var all := Expected(file, k);
    FromEventLength(file, k);
    assert |all| == |Sent(file, k)|;
    assert all[..j + 1] == all[..j] + [all[j]];
    var i := if k == 0 then j else if j == 0 then 0 else k + j - 1;
    assert SentOk(file, i) && SentOk(file, 0);
    assert Sent(file, k)[j] == file[i];
    OffsetsGrow(file, 0, if i == 0 then k else i);
    if k == 0 || j > 0 {
      FromEventAt(file, k, i - k);
      if i + 1 < |file| {
        FromEventAt(file, k, i + 1 - k);
      }
    } else if k < |file| {
      FromEventAt(file, k, 0);
    }
  }

  lemma UptoIsPrefix(file: seq<SentEvent>, k: nat, j: nat, handed: seq<Handed>, oldOff: nat)
    requires k <= |file| && Upto(file, k, j, handed, oldOff)
    ensures handed <= Expected(file, k)
    ensures j == |Sent(file, k)| ==> handed == Expected(file, k)
  {
    FromEventLength(file, k);
  }

  lemma {:induction false} OffsetsGrow(file: seq<SentEvent>, i: nat, j: nat)
    requires FileOk(file) && i <= j <= |file|
    ensures StartOf(file, i) + (j - i) <= StartOf(file, j)
    decreases j
  {
    if i < j {
      OffsetsGrow(file, i, j - 1);
      assert SentOk(file, j - 1);
    }
  }

  // ----- what the offsets mean

  /** Every real event is reported at its true offset, and ends where the next one is reported. */
  lemma OffsetsAreTrue(file: seq<SentEvent>, k: nat, i: nat)
    requires FileOk(file) && k + i < |file|
    ensures var h := FromEvent(file, k);
      && |h| == |file| - k && h[i].ev == file[k + i]
      && h[i].pos == StartOf(file, k + i)
      && h[i].pos + h[i].ev.size == h[i].ev.logPos
      && (k + i + 1 < |file| ==> h[i + 1].pos == h[i].ev.logPos)
  {
    FromEventAt(file, k, i);
    assert SentOk(file, k + i);
    if k + i + 1 < |file| {
      FromEventAt(file, k, i + 1);
    }
  }

  /**
   * A dump restarted at the end position of an event that was handed out starts on the boundary
   * after it, and the two dumps together hand out the file's events once each.
   */
  lemma RestartAtEndPosition(file: seq<SentEvent>, k: nat, i: nat)
    requires FileOk(file) && k + i < |file|
    ensures file[k + i].logPos == StartOf(file, k + i + 1)
    ensures |FromEvent(file, k)| > i
    ensures FromEvent(file, k)[..i + 1] + FromEvent(file, k + i + 1) == FromEvent(file, k)
  {
    assert SentOk(file, k + i);
    FromEventAt(file, k, i);
    FromEventSplits(file, k, i + 1);
  }

  lemma {:induction false} FromEventSplits(file: seq<SentEvent>, k: nat, i: nat)
    requires k + i <= |file|
    ensures |FromEvent(file, k)| >= i
    ensures FromEvent(file, k)[..i] + FromEvent(file, k + i) == FromEvent(file, k)
    decreases i
  {
    FromEventLength(file, k);
    if i != 0 {
      FromEventSplits(file, k + 1, i - 1);
      var h := FromEvent(file, k);
      assert h[..i] == [h[0]] + FromEvent(file, k + 1)[..i - 1];
    }
  }

  /** The start position determines the event the dump starts before. */
  lemma StartIsUnique(file: seq<SentEvent>, k: nat, k': nat)
    requires FileOk(file) && k <= |file| && k' <= |file| && StartOf(file, k) == StartOf(file, k')
    ensures k == k'
  {
    if k < k' {
      OffsetsGrow(file, k, k');
    } else if k' < k {
      OffsetsGrow(file, k', k);
    }
  }

  /**
   * A dump from within a file hands out the format event first, at the start offset and without
   * moving it: the next event has that offset too, and it is its own.
   */
  lemma FormatEventAgain(file: seq<SentEvent>, k: nat)
    requires FileOk(file) && 0 < k < |file|
    ensures var h := Expected(file, k);
      && |h| == 1 + (|file| - k)
      && h[0].ev == file[0] && h[0].ev.kind.FormatDescription?
      && h[1].ev == file[k] && h[0].pos == h[1].pos == file[k - 1].logPos
      && h[1].pos + h[1].ev.size == h[1].ev.logPos
  {
    assert SentOk(file, 0) && SentOk(file, k - 1);
    OffsetsAreTrue(file, k, 0);
  }

  /** A dump from the start hands the format event out once, at its own offset. */
  lemma FormatEventOnce(file: seq<SentEvent>)
    requires FileOk(file)
    ensures var h := Expected(file, 0);
      && |h| == |file| && h[0] == Handed(file[0], 4)
      && forall i :: 0 < i < |h| ==> !h[i].ev.kind.FormatDescription? && h[i].pos == h[i - 1].ev.logPos
  {
    FromEventLength(file, 0);
    OffsetsAreTrue(file, 0, 0);
    var h := Expected(file, 0);
    forall i | 0 < i < |h| ensures !h[i].ev.kind.FormatDescription? && h[i].pos == h[i - 1].ev.logPos {
      OffsetsAreTrue(file, 0, i - 1);
      OffsetsAreTrue(file, 0, i);
      assert SentOk(file, i);
    }
  }
}
