/**
 * The listener's fixed buffer: chunks from the pipe are cut into lines in place, captured and
 * dispatched. Refines the cutting of the whole stream at its line feeds.
 */
module LineCutter {
  import opened Bytes
  import opened Markers
  import opened Listener
  import opened CaptureChain
  import opened Splitting
  import opened ListenerThread

  /** The text at index `i` up to the terminator is `s`. */
  ghost predicate CStr(a: array<char>, i: nat, s: string)
    reads a
  {
    i + |s| < a.Length && a[i..i + |s|] == s && a[i + |s|] == '\0' && '\0' !in s
  }

  /** `strcpy` to the front of `dst`, which may be the array being read. */
  method StrCpy(dst: array<char>, src: array<char>, from: nat, ghost s: string) returns (n: nat)
    requires CStr(src, from, s) && |s| < dst.Length
    modifies dst
    ensures CStr(dst, 0, s) && n == |s|
  {
    n := 0;
    while src[from + n] != '\0'
      invariant n <= |s| && dst[..n] == s[..n]
      invariant forall j :: from + n <= j <= from + |s| ==> src[j] == old(src[j])
      decreases |s| - n
    {
      assert old(src[from..from + |s|])[n] == s[n];
      dst[n] := src[from + n];
      n := n + 1;
    }
    dst[n] := '\0';
  }

  function Classes(lines: seq<string>): seq<Line<string>> {
    seq(|lines|, i requires 0 <= i < |lines| => Classify(lines[i]))
  }

  lemma ClassesAppend(lines: seq<string>, l: string)
    ensures Classes(lines + [l]) == Classes(lines) + [Classify(l)]
  {
  }

  lemma ColumnPrefix(head: string, line: string)
    requires IsColumn(head) && head <= line
    ensures Classify(head) == Column && Classify(line) == Column
  {
    assert COLUMN <= line;
    assert "###" <= COLUMN;
  }

  /** What the handler is given for a line: the line, or the long head of a column line. */
  ghost predicate GivenFor(short: int, given: string, line: string) {
    given == line || (IsColumn(given) && given <= line && |given| > short)
  }

  ghost predicate Agree(short: int, given: seq<string>, lines: seq<string>) {
    |given| == |lines| && forall i :: 0 <= i < |lines| ==> GivenFor(short, given[i], lines[i])
  }

  /**
   * The lines the buffer is made for. A line, complete or not, either is short, or is a column
   * line, its equals sign in sight, that arrives while a row's data is being read and overflows the
   * buffer once.
   */
  ghost predicate Fits(max: nat, len: nat, st: State<string>, s: string) {
    forall n :: 0 <= n <= |s| ==> TailFits(max, len, st, s[..n])
  }

  ghost predicate TailFits(max: nat, len: nat, st: State<string>, s: string) {
    var t := Tail(s);
    || |t| <= max - 2 * len
    || (|t| <= 2 * max - 3 * len && IsColumn(t) && ListenAll(st, Classes(Lines(s))).lo.data)
  }

  /** No complete line of `s` is a marker with a field missing, or a column without its value. */
  ghost predicate WellMarked(s: string) {
    forall i :: 0 <= i < |Lines(s)| ==> Classify(Lines(s)[i]) != Malformed
  }

  class Cutter {
    const max: nat  // bytes a line may use in the buffer
    const len: nat  // bytes one read may deliver
    const buf: array<char>
    const head: array<char>
    const saved: array<char>
    const chain: Chain
    const thread: Thread
    var startLine: nat
    var bufferStart: nat
    var lob: bool
    ghost var spilled: string
    ghost var dispatched: seq<string>

    ghost predicate Shape()
      reads this
    {
      && len >= 1 && max >= 2 * len
      && buf.Length == max + 1 && head.Length == max + 1 && saved.Length == len
      && buf != head && buf != saved && head != saved
    }

    /** The head of a spilled line is kept aside, already captured, and it is column data. */
    ghost predicate LobOk()
      reads this, head, chain, thread
    {
      && chain.current == spilled
      && (if lob then
            && CStr(head, 0, spilled) && IsColumn(spilled) && '\n' !in spilled
            && |spilled| > max - 2 * len && startLine == 0
            && thread.data
          else spilled == "")
    }

    ghost predicate Valid()
      reads this, buf, head, chain, thread
    {
      && Shape()
      && chain.Valid() && FlagsNest(thread.St().lo) && LobOk()
      && startLine <= bufferStart && bufferStart + len <= max
      && OnOneLine(buf[startLine..bufferStart]) && '\0' !in buf[startLine..bufferStart]
    }

    /** The unfinished line so far. */
    ghost function Pending(): string
      reads this, buf
      requires Shape() && startLine <= bufferStart <= max
    {
      spilled + buf[startLine..bufferStart]
    }

    constructor (max: nat, len: nat, chain: Chain, thread: Thread)
      requires len >= 1 && max >= 2 * len
      requires chain.Valid() && chain.current == "" && FlagsNest(thread.St().lo)
      ensures Valid() && fresh(buf) && fresh(head) && fresh(saved)
      ensures this.max == max && this.len == len && this.chain == chain && this.thread == thread
      ensures Pending() == "" && dispatched == []
    {
      this.max, this.len, this.chain, this.thread := max, len, chain, thread;
      buf := new char[max + 1];
      head := new char[max + 1];
      saved := new char[len];
      startLine, bufferStart, lob := 0, 0, false;
      spilled, dispatched := "", [];
    }

    /** One read: the bytes land after the unfinished line, with a terminator behind them. */
    method Deposit(chunk: string) returns (end: nat)
      requires Valid() && 0 < |chunk| <= len && '\0' !in chunk
      modifies buf
      ensures end == bufferStart + |chunk| <= max
      ensures buf[..bufferStart] == old(buf[..bufferStart])
      ensures CStr(buf, bufferStart, chunk)
    {
      hide Chain.Valid, ListenAll, Listen;
      forall i | 0 <= i < |chunk| {
        buf[bufferStart + i] := chunk[i];
      }
      end := bufferStart + |chunk|;
      buf[end] := '\0';
      assert buf[bufferStart..end] == chunk;
    }

    /** The scan position: `seen` has been cut, `rest` is in the buffer from `work` to the terminator. */
    ghost predicate At(seen: string, rest: string, work: nat)
      reads this, buf, head, chain, thread
    {
      && Shape() && FlagsNest(thread.St().lo) && LobOk()
      && startLine <= work && work + |rest| <= max && |rest| <= len
      && CStr(buf, work, rest)
      && Tail(seen) == spilled + buf[startLine..work]
    }

    /** The line is in the buffer as a whole. */
    method HandWhole(work: nat, ghost line: string, ghost rest: string) returns (next: nat)
      requires Shape() && startLine <= work && buf.Length > work && buf[startLine..work] == line
      requires CStr(buf, work + 1, rest)
      requires Classify(line) != Malformed
      modifies this`startLine, this`dispatched, buf, thread
      ensures CStr(buf, next, rest) && startLine == next == work + 1
      ensures thread.St() == Listen(old(thread.St()), Classify(line))
      ensures dispatched == old(dispatched) + [line]
    {
      hide Classify, Listen, ListenAll;
      buf[work] := '\0';
      next := work + 1;
      assert buf[startLine..work] == line;
      assert buf[next..next + |rest|] == rest;
      var _ := thread.Dispatch(buf[startLine..work]);
      dispatched := dispatched + [line];
      startLine := next;
    }

    /** The line's head was spilled: keep what follows aside, hand over the head, go on with what follows. */
    method HandSpilled(work: nat, ghost rest: string)
      requires Shape() && lob && CStr(head, 0, spilled) && IsColumn(spilled) && |spilled| <= max
      requires startLine == 0 && CStr(buf, work + 1, rest) && |rest| < len
      requires FlagsNest(thread.St().lo) && thread.data
      modifies this`lob, this`spilled, this`dispatched, buf, saved, thread
      ensures CStr(buf, 0, rest) && !lob && spilled == ""
      ensures thread.St() == Listen(old(thread.St()), Column)
      ensures dispatched == old(dispatched) + [old(spilled)]
    {
      var _ := StrCpy(saved, buf, work + 1, rest);
      var n := StrCpy(buf, head, 0, spilled);
      assert buf[0..n] == spilled;
      ColumnPrefix(spilled, spilled);
      var column := thread.Dispatch(buf[startLine..n]);
      dispatched := dispatched + [spilled];
      assert column;
      var _ := StrCpy(buf, saved, 0, rest);
      lob, spilled := false, "";
    }

    /** Hand `line` over and leave `rest` in the buffer, at the scan position. */
    method HandOver(ghost line: string, ghost rest: string, work: nat) returns (next: nat)
      requires Shape() && startLine <= work && work + 1 + |rest| <= max && |rest| < len
      requires CStr(buf, work + 1, rest)
      requires Classify(line) != Malformed && line == spilled + buf[startLine..work]
      requires FlagsNest(thread.St().lo)
      requires lob ==> CStr(head, 0, spilled) && IsColumn(spilled) && startLine == 0 && thread.data
      requires !lob ==> spilled == ""
      modifies this`startLine, this`lob, this`spilled, this`dispatched, buf, saved, thread
      ensures CStr(buf, next, rest) && startLine == next && next + |rest| <= max
      ensures !lob && spilled == ""
      ensures thread.St() == Listen(old(thread.St()), Classify(line))
      ensures dispatched == old(dispatched) + [if old(lob) then old(spilled) else line]
    {
      if lob {
        ColumnPrefix(spilled, line);
        HandSpilled(work, rest);
        next := 0;
      } else {
        assert buf[startLine..work] == line;
        next := HandWhole(work, line, rest);
      }
    }

    /** A line feed: capture through it, hand the line over, and go on after it. */
    method EndOfLine(ghost line: string, ghost rest: string, work: nat, sofDate: Date, eofDate: Date)
      returns (next: nat)
      requires Shape() && chain.Valid() && FlagsNest(thread.St().lo) && LobOk()
      requires startLine <= work && work + 1 + |rest| <= max && |rest| < len
      requires CStr(buf, work + 1, rest)
      requires buf[work] == '\n' && OnOneLine(line) && line == spilled + buf[startLine..work]
      requires Classify(line) != Malformed
      modifies this`startLine, this`lob, this`spilled, this`dispatched, buf, saved, chain, thread
      ensures chain.Valid() && LobOk() && !lob
      ensures CStr(buf, next, rest) && startLine == next && next + |rest| <= max
      ensures thread.St() == Listen(old(thread.St()), Classify(line))
      ensures dispatched == old(dispatched) + [if old(lob) then old(spilled) else line]
      ensures chain.Captured() == old(chain.Captured() + buf[startLine..work]) + "\n"
    {
      SuffixOnOneLine(spilled, buf[startLine..work]);
      assert buf[startLine..work + 1] == buf[startLine..work] + "\n";
      Reassociate(chain.Captured(), buf[startLine..work], "\n");
      chain.WriteLine(buf[startLine..work + 1], sofDate, eofDate);
      next := HandOver(line, rest, work);
    }

    /** Everything captured, and what the buffer holds of the current line up to `work`. */
    ghost function ReadThrough(work: nat): string
      reads this, buf, chain
      requires startLine <= work <= buf.Length
    {
      chain.Captured() + buf[startLine..work]
    }

    /** The lines cut so far are dispatched, and the handler went through exactly their classes. */
    ghost predicate Handled(st0: State<string>, given0: seq<string>, lines: seq<string>)
      reads this, thread
    {
      && thread.St() == ListenAll(st0, Classes(lines))
      && given0 <= dispatched && Agree(max - 2 * len, dispatched[|given0|..], lines)
    }

    /** One step of the inner loop over a line feed. */
    method StepLine(ghost seen: string, ghost rest: string, work: nat, sofDate: Date, eofDate: Date,
                    ghost st0: State<string>, ghost given0: seq<string>) returns (next: nat)
      requires chain.Valid() && At(seen, ['\n'] + rest, work) && Classify(Tail(seen)) != Malformed
      requires OnOneLine(Tail(seen)) && Handled(st0, given0, Lines(seen))
      modifies this`startLine, this`lob, this`spilled, this`dispatched, buf, saved, chain, thread
      ensures chain.Valid() && At(seen + ['\n'], rest, next) && startLine == next
      ensures Handled(st0, given0, Lines(seen + ['\n']))
      ensures ReadThrough(next) == old(ReadThrough(work)) + ['\n']
    {
      hide Chain.Valid, ListenAll, Lines, Tail, Classes, Listen, Agree;
      LinesStep(seen, '\n');
      ghost var line, wasLob, wasSpilled := Tail(seen), lob, spilled;
      ghost var s1, given1 := thread.St(), dispatched;
      AfterFirst(buf, work, '\n', rest);
      ListenNests(s1, Classify(line));
      next := EndOfLine(line, rest, work, sofDate, eofDate);
      assert buf[startLine..next] == "";
      assert ReadThrough(next) == chain.Captured();
      HandledAppend(st0, given0, Lines(seen), given1, if wasLob then wasSpilled else line, line);
    }

    lemma HandledAppend(st0: State<string>, given0: seq<string>, lines: seq<string>,
                        given1: seq<string>, given: string, line: string)
      requires given0 <= given1 && Agree(max - 2 * len, given1[|given0|..], lines)
      requires GivenFor(max - 2 * len, given, line)
      requires dispatched == given1 + [given]
      requires thread.St() == Listen(ListenAll(st0, Classes(lines)), Classify(line))
      ensures Handled(st0, given0, lines + [line])
    {
      ClassesAppend(lines, line);
      assert (Classes(lines) + [Classify(line)])[..|lines|] == Classes(lines);
      assert dispatched[|given0|..] == given1[|given0|..] + [given];
    }

    lemma NoneHandled()
      ensures Handled(thread.St(), dispatched, [])
    {
    }

    /** What the scan sees in the buffer. */
    lemma Look(seen: string, rest: string, work: nat)
      requires At(seen, rest, work)
      ensures startLine <= work <= max < buf.Length
      ensures buf[work] != '\0' <==> rest != ""
      ensures rest != "" ==> buf[work] == rest[0]
    {
      if rest != "" {
        assert buf[work..work + |rest|][0] == rest[0];
      }
    }

    /** One step of the inner loop over any other character. */
    lemma StepChar(seen: string, c: char, rest: string, work: nat)
      requires At(seen, [c] + rest, work) && Tail(seen + [c]) == Tail(seen) + [c]
      ensures At(seen + [c], rest, work + 1)
      ensures ReadThrough(work + 1) == ReadThrough(work) + [c]
    {
      hide Tail, Chain.Captured;
      AfterFirst(buf, work, c, rest);
      assert buf[startLine..work + 1] == buf[startLine..work] + [c];
      Reassociate(spilled, buf[startLine..work], [c]);
      Reassociate(chain.Captured(), buf[startLine..work], [c]);
    }

    /** The inner loop: from the scan position to the terminator. */
    method Scan(ghost start: string, ghost rest0: string, work0: nat, sofDate: Date, eofDate: Date)
      returns (end: nat)
      requires chain.Valid() && At(start, rest0, work0) && Lines(start) == []
      requires WellMarked(start + rest0)
      modifies this`startLine, this`lob, this`spilled, this`dispatched, buf, saved, chain, thread
      ensures chain.Valid() && At(start + rest0, "", end)
      ensures Handled(old(thread.St()), old(dispatched), Lines(start + rest0))
      ensures ReadThrough(end) == old(ReadThrough(work0)) + rest0
    {
      hide *;
      ghost var st0, given0 := thread.St(), dispatched;
      Look(start, rest0, work0);
      ghost var total := ReadThrough(work0) + rest0;
      ghost var seen, rest := start, rest0;
      NoneHandled();
      end := work0;
      while buf[end] != '\0'
        invariant chain.Valid() && At(seen, rest, end)
        invariant startLine <= end <= max < buf.Length
        invariant buf[end] != '\0' <==> rest != ""
        invariant Handled(st0, given0, Lines(seen))
        invariant seen + rest == start + rest0
        invariant ReadThrough(end) + rest == total
        decreases |rest|
      {
        ghost var c, rest' := rest[0], rest[1..];
        assert rest == [c] + rest';
        Look(seen, rest, end);
        ScanStep(start + rest0, seen, c, rest');
        Reassociate(ReadThrough(end), [c], rest');
        if buf[end] == '\n' {
          end := StepLine(seen, rest', end, sofDate, eofDate, st0, given0);
          Look(seen + ['\n'], rest', end);
        } else {
          StepChar(seen, c, rest', end);
          Look(seen + [c], rest', end + 1);
          end := end + 1;
        }
        seen, rest := seen + [c], rest';
      }
      assert seen + rest == seen;
    }

    /**
     * Make room for the next read. A full buffer moves the unfinished line to the front; when that
     * cannot help, column data is captured at once and its head kept aside, and anything else is dropped.
     */
    method Compact(ghost seen: string, end: nat) returns (kept: bool)
      requires chain.Valid() && At(seen, "", end) && '\0' !in buf[startLine..end] && OnOneLine(Tail(seen))
      requires lob ==> end + len <= max
      requires end + len > max && startLine < len && thread.data ==> IsColumn(buf[startLine..end])
      modifies this`startLine, this`bufferStart, this`lob, this`spilled, buf, head, chain
      ensures Valid() && dispatched == old(dispatched)
      ensures kept <==> old(end + len <= max || startLine >= len || thread.data)
      ensures kept ==> Pending() == Tail(seen)
      ensures kept ==> chain.Captured() + buf[startLine..bufferStart] == old(chain.Captured() + buf[startLine..end])
      ensures !kept ==> Pending() == "" && chain.Captured() == old(chain.Captured())
    {
      hide Chain.Valid, Chain.Captured, Tail, ListenAll;
      kept := true;
      ghost var piece := buf[startLine..end];
      assert CStr(buf, startLine, piece);
      SuffixOnOneLine(spilled, piece);
      if end + len > max {
        if startLine == 0 || startLine < len {
          if thread.data {
            Spill(end);
          } else {
            kept := false;
          }
          bufferStart := 0;
        } else {
          bufferStart := StrCpy(buf, buf, startLine, piece);
        }
        startLine := 0;
      } else {
        bufferStart := end;
      }
      assert kept && !(lob && !old(lob)) ==> buf[startLine..bufferStart] == piece;
      assert buf[0..0] == "";
    }

    /** Capture the line so far and keep it aside: the rest of it will be read from the front. */
    method Spill(end: nat)
      requires Shape() && chain.Valid() && chain.current == "" && thread.data
      requires startLine < len && max < end + len && end <= max && CStr(buf, startLine, buf[startLine..end])
      requires IsColumn(buf[startLine..end]) && OnOneLine(buf[startLine..end])
      modifies this`lob, this`spilled, this`startLine, head, chain
      ensures lob && spilled == buf[old(startLine)..end] && startLine == 0
      ensures chain.Valid() && LobOk()
      ensures chain.Captured() == old(chain.Captured()) + spilled
    {
      hide Chain.Valid, Chain.Captured, IsColumn, ListenAll, Listen, Tail, Lines;
      ghost var piece := buf[startLine..end];
      lob := true;
      chain.WriteHead(buf[startLine..end]);
      var _ := StrCpy(head, buf, startLine, piece);
      spilled := piece;
      startLine := 0;
    }

    /** The text of the current line still in the buffer. */
    ghost function InBuffer(): string
      reads this, buf
      requires Shape() && startLine <= bufferStart <= max
    {
      buf[startLine..bufferStart]
    }

    /**
     * One read and everything the loop does with it. With `s` the unfinished line and the new bytes:
     * the lines of `s` are handed over in order, its tail is the new unfinished line, and every byte
     * read so far is either captured or still in the buffer.
     */
    method Feed(chunk: string, sofDate: Date, eofDate: Date)
      requires Valid() && 0 < |chunk| <= len && '\0' !in chunk
      requires WellMarked(Pending() + chunk)
      requires Fits(max, len, thread.St(), Pending() + chunk)
      modifies this`startLine, this`bufferStart, this`lob, this`spilled, this`dispatched
      modifies buf, head, saved, chain, thread
      ensures Valid()
      ensures Pending() == Tail(old(Pending()) + chunk)
      ensures Handled(old(thread.St()), old(dispatched), Lines(old(Pending()) + chunk))
      ensures chain.Captured() + InBuffer() == old(chain.Captured() + InBuffer()) + chunk
    {
      hide Chain.Valid, Chain.Captured, ListenAll, Lines, Tail, Classes, Listen, WellMarked, TailFits, Agree;
      ghost var p, st0 := Pending(), thread.St();
      ghost var s := p + chunk;
      OneLineSplits(p);
      ConcatFree(spilled, InBuffer(), chunk);
      var _ := Deposit(chunk);
      assert buf[startLine..bufferStart] == old(InBuffer());
      var end := Scan(p, chunk, bufferStart, sofDate, eofDate);
      assert s[..|s|] == s;
      TailOf(s, spilled, buf[startLine..end]);
      Overflow(st0, s, spilled, buf[startLine..end]);
      var kept := Compact(s, end);
      assert kept;
    }

    /** What fitting says when the buffer is full. */
    lemma Overflow(st0: State<string>, s: string, spilled: string, piece: string)
      requires TailFits(max, len, st0, s) && Tail(s) == spilled + piece && max >= len
      ensures |spilled| > max - 2 * len ==> |piece| <= max - len
      ensures spilled == "" && |piece| > max - 2 * len
        ==> IsColumn(piece) && ListenAll(st0, Classes(Lines(s))).lo.data
    {
      if spilled == "" {
        assert spilled + piece == piece;
      }
    }
  }

  ghost function Concat(chunks: seq<string>): string {
    if chunks == [] then "" else Concat(chunks[..|chunks| - 1]) + chunks[|chunks| - 1]
  }

  lemma {:induction false} ConcatPrefix(chunks: seq<string>, n: nat)
    requires n <= |chunks|
    ensures Concat(chunks[..n]) <= Concat(chunks)
  {
    if n < |chunks| {
      ConcatPrefix(chunks[..|chunks| - 1], n);
      assert chunks[..|chunks| - 1][..n] == chunks[..n];
    } else {
      assert chunks[..n] == chunks;
    }
  }

  lemma ClassesConcat(a: seq<string>, b: seq<string>)
    ensures Classes(a + b) == Classes(a) + Classes(b)
  {
  }

  /** The lines of `done` followed by `q` are a prefix of any stream that continues `done` with it. */
  lemma CutContinues(done: string, q: string)
    ensures Lines(Join(Lines(done)) + q) == Lines(done) + Lines(q)
    ensures Tail(Join(Lines(done)) + q) == Tail(q)
  {
    SplitIsFaithful(done);
    assert Join(Lines(done)) == Join(Lines(done)) + "";
    SplitIsUnique(Join(Lines(done)), Lines(done), "");
    SplitContinues(Join(Lines(done)), q);
    assert "" + q == q;
  }

  /** A piece of the stream that starts where a line starts, and the stream it is taken from. */
  lemma PieceOfStream(done: string, chunk: string, stream: string)
    requires done + chunk <= stream
    ensures Join(Lines(done)) + (Tail(done) + chunk) <= stream
    ensures Lines(done) + Lines(Tail(done) + chunk) <= Lines(stream)
  {
    hide *;
    var before, q := Join(Lines(done)), Tail(done) + chunk;
    SplitIsFaithful(done);
    Reassociate(before, Tail(done), chunk);
    CutContinues(done, q);
    assert stream == (before + q) + stream[|before + q|..];
    SplitContinues(before + q, stream[|before + q|..]);
  }

  /** What holds of a whole stream holds, from the state reached, of what is left of it. */
  lemma WellMarkedContinues(done: string, chunk: string, stream: string)
    requires done + chunk <= stream && WellMarked(stream)
    ensures WellMarked(Tail(done) + chunk)
  {
    hide Lines, Tail, Join, Classify;
    PieceOfStream(done, chunk, stream);
    var q := Tail(done) + chunk;
    forall i | 0 <= i < |Lines(q)| ensures Classify(Lines(q)[i]) != Malformed {
      assert Lines(stream)[|Lines(done)| + i] == Lines(q)[i];
    }
  }

  lemma FitsContinues(max: nat, len: nat, st0: State<string>, done: string, chunk: string, stream: string)
    requires done + chunk <= stream && Fits(max, len, st0, stream)
    ensures Fits(max, len, ListenAll(st0, Classes(Lines(done))), Tail(done) + chunk)
  {
    hide Lines, Tail, Join, Classes, ListenAll, TailFits;
    PieceOfStream(done, chunk, stream);
    var before, q := Join(Lines(done)), Tail(done) + chunk;
    forall n | 0 <= n <= |q| ensures TailFits(max, len, ListenAll(st0, Classes(Lines(done))), q[..n]) {
      assert stream[..|before| + n] == before + q[..n];
      TailFitsContinues(max, len, st0, done, q[..n]);
    }
  }

  lemma TailFitsContinues(max: nat, len: nat, st0: State<string>, done: string, q: string)
    requires TailFits(max, len, st0, Join(Lines(done)) + q)
    ensures TailFits(max, len, ListenAll(st0, Classes(Lines(done))), q)
  {
    hide Lines, Tail, Join, Classes, ListenAll;
    CutContinues(done, q);
    ClassesConcat(Lines(done), Lines(q));
    ListenAllAppend(st0, Classes(Lines(done)), Classes(Lines(q)));
  }

  /**
   * The whole run over any way the pipe chops the stream into reads: the lines handed over are the
   * stream's lines, and what is captured is the stream through its last line feed, plus the head of
   * a column line that is still being read.
   */
  method Run(c: Cutter, chunks: seq<string>, sofDate: Date, eofDate: Date)
    requires c.Valid() && c.Pending() == ""
    requires forall i :: 0 <= i < |chunks| ==> 0 < |chunks[i]| <= c.len && '\0' !in chunks[i]
    requires WellMarked(Concat(chunks)) && Fits(c.max, c.len, c.thread.St(), Concat(chunks))
    modifies c, c.buf, c.head, c.saved, c.chain, c.thread
    ensures c.Valid() && c.Pending() == Tail(Concat(chunks))
    ensures c.Handled(old(c.thread.St()), old(c.dispatched), Lines(Concat(chunks)))
    ensures c.chain.Captured() == old(c.chain.Captured()) + Join(Lines(Concat(chunks))) + c.spilled
  {
    hide *;
    ghost var st0, given0, captured0 := c.thread.St(), c.dispatched, c.chain.Captured();
    ghost var done := "";
    NothingDone(c, chunks);
    for i := 0 to |chunks|
      invariant done == Concat(chunks[..i])
      invariant Progress(c, st0, given0, captured0, done)
    {
      NextChunk(chunks, i);
      RunStep(c, chunks[i], sofDate, eofDate, st0, given0, captured0, done, Concat(chunks));
      done := done + chunks[i];
    }
    assert chunks[..|chunks|] == chunks;
    AllDone(c, st0, given0, captured0, done);
  }

  lemma AllDone(c: Cutter, st0: State<string>, given0: seq<string>, captured0: string, done: string)
    requires Progress(c, st0, given0, captured0, done)
    ensures c.Valid() && c.Pending() == Tail(done)
    ensures c.Handled(st0, given0, Lines(done))
    ensures c.chain.Captured() == captured0 + Join(Lines(done)) + c.spilled
  {
    hide Chain.Valid, Chain.Captured, ListenAll, Lines, Tail, Classes, Agree;
    SplitIsFaithful(done);
    var whole := Join(Lines(done));
    Reassociate(captured0, whole, Tail(done));
    Reassociate(captured0 + whole, c.spilled, c.InBuffer());
    CancelEnd(c.chain.Captured(), c.InBuffer(), captured0 + whole + c.spilled);
  }

  /** After `done` has been read. */
  ghost predicate Progress(c: Cutter, st0: State<string>, given0: seq<string>, captured0: string, done: string)
    reads c, c.buf, c.head, c.chain, c.thread
  {
    && c.Valid() && c.Pending() == Tail(done)
    && c.Handled(st0, given0, Lines(done))
    && c.chain.Captured() + c.InBuffer() == captured0 + done
  }

  lemma NothingDone(c: Cutter, chunks: seq<string>)
    requires c.Valid() && c.Pending() == ""
    ensures Concat(chunks[..0]) == ""
    ensures Progress(c, c.thread.St(), c.dispatched, c.chain.Captured(), "")
  {
    hide Chain.Valid, Chain.Captured;
    c.NoneHandled();
    assert c.InBuffer() == "";
  }

  lemma NextChunk(chunks: seq<string>, i: nat)
    requires i < |chunks|
    ensures Concat(chunks[..i + 1]) == Concat(chunks[..i]) + chunks[i] <= Concat(chunks)
  {
    ConcatPrefix(chunks, i + 1);
    var read := chunks[..i + 1];
    assert read[..|read| - 1] == chunks[..i] && read[|read| - 1] == chunks[i];
  }

  method RunStep(c: Cutter, chunk: string, sofDate: Date, eofDate: Date,
                 ghost st0: State<string>, ghost given0: seq<string>, ghost captured0: string,
                 ghost done: string, ghost stream: string)
    requires Progress(c, st0, given0, captured0, done)
    requires 0 < |chunk| <= c.len && '\0' !in chunk
    requires done + chunk <= stream
    requires WellMarked(stream) && Fits(c.max, c.len, st0, stream)
    modifies c, c.buf, c.head, c.saved, c.chain, c.thread
    ensures Progress(c, st0, given0, captured0, done + chunk)
  {
    hide Chain.Valid, Chain.Captured, ListenAll, Lines, Tail, Classes, Listen, WellMarked, Fits, Agree,
      Cutter.InBuffer;
    ghost var given1 := c.dispatched;
    WellMarkedContinues(done, chunk, stream);
    FitsContinues(c.max, c.len, st0, done, chunk, stream);
    c.Feed(chunk, sofDate, eofDate);
    SplitContinues(done, chunk);
    HandledContinues(c, st0, given0, given1, Lines(done), Lines(Tail(done) + chunk));
    Reassociate(captured0, done, chunk);
  }

  lemma HandledContinues(c: Cutter, st0: State<string>, given0: seq<string>, given1: seq<string>,
                         done: seq<string>, more: seq<string>)
    requires given0 <= given1 && Agree(c.max - 2 * c.len, given1[|given0|..], done)
    requires c.Handled(ListenAll(st0, Classes(done)), given1, more)
    ensures c.Handled(st0, given0, done + more)
  {
    hide Classes, ListenAll, GivenFor;
    ClassesConcat(done, more);
    ListenAllAppend(st0, Classes(done), Classes(more));
    var given := c.dispatched;
    assert given[|given0|..] == given1[|given0|..] + given[|given1|..];
  }

  lemma CancelEnd(a: string, end: string, b: string)
    requires a + end == b + end
    ensures a == b
  {
    assert |a| == |b|;
    assert a == (a + end)[..|a|] && b == (b + end)[..|b|];
  }

  lemma OneLineSplits(t: string)
    requires OnOneLine(t)
    ensures Lines(t) == [] && Tail(t) == t
  {
    SplitIsUnique(t, [], t);
  }

  lemma ConcatFree(a: string, b: string, c: string)
    requires '\0' !in a && '\0' !in b && '\0' !in c
    ensures '\0' !in a + b + c
    ensures '\n' !in a && '\n' !in b ==> OnOneLine(a + b)
  {
  }

  lemma TailOf(s: string, a: string, b: string)
    requires '\0' !in s && Tail(s) == a + b
    ensures OnOneLine(Tail(s)) && '\0' !in b
  {
    SplitIsFaithful(s);
    SuffixNulFree(Join(Lines(s)), a + b);
    SuffixNulFree(a, b);
  }

  lemma ScanStep(s: string, seen: string, c: char, rest: string)
    requires s == seen + ([c] + rest)
    ensures s == seen + [c] + rest && s[|seen|] == c
    ensures Lines(seen + [c]) == if c == '\n' then Lines(seen) + [Tail(seen)] else Lines(seen)
    ensures Tail(seen + [c]) == if c == '\n' then "" else Tail(seen) + [c]
    ensures WellMarked(s) && c == '\n' ==> Classify(Tail(seen)) != Malformed
    ensures OnOneLine(Tail(seen))
  {
    Reassociate(seen, [c], rest);
    LinesStep(seen, c);
    SplitContinues(seen + [c], rest);
    SplitIsFaithful(seen);
    if c == '\n' {
      assert Lines(s)[|Lines(seen)|] == Tail(seen);
    }
  }

  /** One character further, the rest of a C string is a C string. */
  lemma AfterFirst(a: array<char>, i: nat, c: char, rest: string)
    requires CStr(a, i, [c] + rest)
    ensures a[i] == c && CStr(a, i + 1, rest)
  {
    var s := [c] + rest;
    assert a[i] == a[i..i + |s|][0] == s[0];
    assert a[i + 1..i + 1 + |rest|] == a[i..i + |s|][1..] == rest;
    SuffixNulFree([c], rest);
  }

  lemma SuffixOnOneLine(a: string, b: string)
    requires OnOneLine(a + b)
    ensures OnOneLine(b) && OneLine(b + "\n")
  {
    assert forall c :: c in b ==> c in a + b;
  }

  lemma SuffixNulFree(a: string, b: string)
    requires '\0' !in a + b
    ensures '\0' !in b
  {
    assert forall c :: c in b ==> c in a + b;
  }

  // ----- what the run means for streams of short lines, and for long ones

  /** A bound on the lines and the tail of a stream bounds the unfinished line at every moment. */
  lemma {:induction false} ShortLinesFit(max: nat, len: nat, st: State<string>, s: string)
    requires forall i :: 0 <= i < |Lines(s)| ==> |Lines(s)[i]| <= max - 2 * len
    requires |Tail(s)| <= max - 2 * len
    ensures Fits(max, len, st, s)
  {
    if s != "" {
      var t, c := s[..|s| - 1], s[|s| - 1];
      assert s == t + [c];
      LinesStep(t, c);
      if c == '\n' {
        assert Lines(s)[|Lines(t)|] == Tail(t);
      }
      assert forall i :: 0 <= i < |Lines(t)| ==> Lines(s)[i] == Lines(t)[i];
      ShortLinesFit(max, len, st, t);
      forall n | 0 <= n <= |s| ensures TailFits(max, len, st, s[..n]) {
        if n < |s| {
          assert s[..n] == t[..n];
        } else {
          assert s[..n] == s;
        }
      }
    } else {
      assert s[..0] == s;
    }
  }

  /** Short lines are handed over as they are. */
  lemma ShortLinesAreExact(short: int, given: seq<string>, lines: seq<string>)
    requires Agree(short, given, lines)
    requires forall i :: 0 <= i < |lines| ==> |lines[i]| <= short
    ensures given == lines
  {
    forall i | 0 <= i < |lines| ensures given[i] == lines[i] {
      assert GivenFor(short, given[i], lines[i]);
    }
  }

  /** A spilled line is cut short for the handler but means the same to it. */
  lemma GivenMeansTheSame(short: int, given: seq<string>, lines: seq<string>)
    requires Agree(short, given, lines)
    ensures Classes(given) == Classes(lines)
  {
    forall i | 0 <= i < |lines| ensures Classify(given[i]) == Classify(lines[i]) {
      assert GivenFor(short, given[i], lines[i]);
      if given[i] != lines[i] {
        ColumnPrefix(given[i], lines[i]);
      }
    }
  }

  /** Nothing is captured ahead of its line feed while the unfinished line is short. */
  lemma NoSpillWhileShort(c: Cutter)
    requires c.Valid() && |c.Pending()| <= c.max - 2 * c.len
    ensures c.spilled == ""
  {
  }
}
