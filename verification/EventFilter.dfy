/** Which events of a binary log the reader handles: a latch over two thresholds, and a stop. */
module EventFilter {

  datatype Kind = FormatDescription | Rotate | Other

  datatype Event = Event(kind: Kind, when: nat, serverId: nat, pos: nat)

  datatype Options = Options(offset: nat, startTime: nat, stopTime: nat, stopPos: nat, serverId: nat)

  // ----- the range, declaratively

  /** Event `i`, counted from `base`, is past both thresholds. Format events do not count. */
  predicate Past(o: Options, base: nat, evs: seq<Event>, i: nat)
    requires i < |evs|
  {
    !evs[i].kind.FormatDescription? && base + i >= o.offset && evs[i].when >= o.startTime
  }

  predicate Latched(o: Options, base: nat, evs: seq<Event>, n: nat)
    requires n <= |evs|
  {
    exists j :: 0 <= j < n && Past(o, base, evs, j)
  }

  /** Format events always; others from the first one past the thresholds on, if the server matches. */
  predicate Considered(o: Options, base: nat, evs: seq<Event>, i: nat)
    requires i < |evs|
  {
    || evs[i].kind.FormatDescription?
    || (Latched(o, base, evs, i + 1)
        && (evs[i].kind.Rotate? || o.serverId == 0 || evs[i].serverId == o.serverId))
  }

  predicate Stops(o: Options, base: nat, evs: seq<Event>, i: nat)
    requires i < |evs|
  {
    Considered(o, base, evs, i) && (evs[i].when >= o.stopTime || evs[i].pos >= o.stopPos)
  }

  // ----- the filter as it runs

  class Filter {
    var recCount: nat
    var offset: nat
    var startTime: nat
    const stopTime: nat
    const stopPos: nat
    const serverId: nat

    constructor (o: Options, base: nat)
      ensures recCount == base && offset == o.offset && startTime == o.startTime
      ensures stopTime == o.stopTime && stopPos == o.stopPos && serverId == o.serverId
    {
      recCount, offset, startTime := base, o.offset, o.startTime;
      stopTime, stopPos, serverId := o.stopTime, o.stopPos, o.serverId;
    }

    /** The head of `process_event`: whether the event is handled, and whether it ends the reading. */
    method Process(ev: Event) returns (handled: bool, stop: bool)
      modifies this
      ensures recCount == old(recCount) + 1
      ensures var open := old(recCount) >= old(offset) && ev.when >= old(startTime);
        && offset == (if open && !ev.kind.FormatDescription? then 0 else old(offset))
        && startTime == (if open && !ev.kind.FormatDescription? then 0 else old(startTime))
        && (var considered := ev.kind.FormatDescription?
              || (open && (ev.kind.Rotate? || serverId == 0 || ev.serverId == serverId));
            && stop == (considered && (ev.when >= stopTime || ev.pos >= stopPos))
            && handled == (considered && !stop))
    {
      handled, stop := false, false;
      if (recCount >= offset && ev.when >= startTime) || ev.kind.FormatDescription? {
        var skipped := false;
        if !ev.kind.FormatDescription? {
          startTime := 0;
          offset := 0;
          skipped := !ev.kind.Rotate? && serverId != 0 && serverId != ev.serverId;
        }
        if !skipped {
          if ev.when >= stopTime || ev.pos >= stopPos {
            stop := true;
          } else {
            handled := true;
          }
        }
      }
      recCount := recCount + 1;
    }
  }

  /**
   * A whole reading: what is handled is exactly what is considered, in order, before the first
   * considered event at or past a stop threshold; and the reading ends there and nowhere else.
   */
  method Read(o: Options, base: nat, evs: seq<Event>) returns (handled: seq<nat>, end: nat)
    ensures end <= |evs|
    ensures forall i :: 0 <= i < end ==> !Stops(o, base, evs, i)
    ensures end < |evs| ==> Stops(o, base, evs, end)
    ensures end < |evs| ==> evs[end].when >= o.stopTime || evs[end].pos >= o.stopPos
    ensures forall i: nat :: i in handled ==> i < |evs| && evs[i].when < o.stopTime && evs[i].pos < o.stopPos
    ensures forall i: nat :: i in handled <==> i < end && Considered(o, base, evs, i)
    ensures forall i, j :: 0 <= i < j < |handled| ==> handled[i] < handled[j]
  {
    var f := new Filter(o, base);
    handled, end := [], 0;
    while end < |evs|
      invariant end <= |evs| && f.recCount == base + end
      invariant f.stopTime == o.stopTime && f.stopPos == o.stopPos && f.serverId == o.serverId
      invariant if Latched(o, base, evs, end) then f.offset == 0 && f.startTime == 0
                else f.offset == o.offset && f.startTime == o.startTime
      invariant forall i :: 0 <= i < end ==> !Stops(o, base, evs, i)
      invariant forall i: nat :: i in handled <==> i < end && Considered(o, base, evs, i)
      invariant forall k :: 0 <= k < |handled| ==> handled[k] < end
      invariant forall i: nat :: i in handled ==> i < |evs| && evs[i].when < o.stopTime && evs[i].pos < o.stopPos
      invariant forall i, j :: 0 <= i < j < |handled| ==> handled[i] < handled[j]
    {
      LatchStep(o, base, evs, end);
      var take, stop := f.Process(evs[end]);
      if stop {
        break;
      }
      if take {
        handled := handled + [end];
      }
      end := end + 1;
    }
  }

  lemma LatchStep(o: Options, base: nat, evs: seq<Event>, n: nat)
    requires n < |evs|
    ensures Latched(o, base, evs, n + 1) <==> Latched(o, base, evs, n) || Past(o, base, evs, n)
  {
  }

  /** What opens the range: an event that is not a format event, late enough by count and by time. */
  predicate Opens(o: Options, base: nat, ev: Event, i: nat) {
    ev.kind != FormatDescription && o.offset <= base + i && o.startTime <= ev.when
  }

  /**
   * What is considered is a suffix, from the first event that opens the range on, less the events of
   * other servers that are not rotations, and every format event wherever it stands.
   */
  lemma {:induction false} ConsideredIsASuffix(o: Options, base: nat, evs: seq<Event>, m: nat)
    requires m <= |evs| && forall i :: 0 <= i < m ==> !Opens(o, base, evs[i], i)
    requires m < |evs| ==> Opens(o, base, evs[m], m)
    ensures forall i :: 0 <= i < |evs| ==>
      (Considered(o, base, evs, i) <==>
        || evs[i].kind == FormatDescription
        || (i >= m && (evs[i].kind == Rotate || o.serverId in {0, evs[i].serverId})))
  {
    forall i | 0 <= i < |evs|
      ensures Considered(o, base, evs, i) <==>
        || evs[i].kind == FormatDescription
        || (i >= m && (evs[i].kind == Rotate || o.serverId in {0, evs[i].serverId}))
    {
      if i >= m {
        assert Past(o, base, evs, m);
      }
      if Latched(o, base, evs, i + 1) {
        var j :| 0 <= j < i + 1 && Past(o, base, evs, j);
        assert Opens(o, base, evs[j], j);
      }
    }
  }

  /** Without a start, a server or a stop within reach, every event is handled. */
  lemma AllByDefault(o: Options, base: nat, evs: seq<Event>)
    requires o.offset <= base && o.startTime == 0 && o.serverId == 0
    requires forall i :: 0 <= i < |evs| ==> evs[i].when < o.stopTime && evs[i].pos < o.stopPos
    ensures forall i :: 0 <= i < |evs| ==> Considered(o, base, evs, i) && !Stops(o, base, evs, i)
  {
    forall i | 0 <= i < |evs| && !evs[i].kind.FormatDescription? ensures Latched(o, base, evs, i + 1) {
      assert Past(o, base, evs, i);
    }
  }
}
