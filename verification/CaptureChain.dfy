/** The rotating chain of capture files. */
module CaptureChain {
  import opened Bytes
  import opened Decimal
  import opened Markers

  datatype CaptureFile = CaptureFile(num: nat, text: string)

  /**
   * What a closed capture file is made of: opening mark, captured text, end mark. A file rotated
   * out because of its size remembers the line that took it over the limit.
   */
  datatype Parts = Parts(sof: string, body: string, eof: string, overflow: Option<string>)

  function Zeros(n: nat): string {
    if n == 0 then "" else "0" + Zeros(n - 1)
  }

  /** `%010lu`. */
  function Padded(n: nat): string {
    if |Print(n)| >= 10 then Print(n) else Zeros(10 - |Print(n)|) + Print(n)
  }

  function Path(base: string, num: nat): string {
    base + "_capture_" + Padded(num) + ".jrn"
  }

  /** A date as it is printed in the marks: it holds no separator. */
  type Date = s: string | SeparatorFree(s) witness ""

  function Sof(base: string, num: nat, date: Date): string {
    "*!SOF!" + Path(base, num) + "!" + Print(num) + "!" + date + "!*\n"
  }

  /** The end mark names the file it closes and the number of the file that follows. */
  function Eof(base: string, num: nat, date: Date): string {
    "*!EOF!" + Path(base, num) + "!" + Print(num + 1) + "!" + date + "!*\n"
  }

  ghost predicate IsSof(base: string, num: nat, s: string) {
    exists date: Date :: s == Sof(base, num, date)
  }

  ghost predicate IsEof(base: string, num: nat, s: string) {
    exists date: Date :: s == Eof(base, num, date)
  }

  /** A mark read by its separators: the tag, a path, a number and a date, and the end of the line. */
  function ReadMark(tag: string, mark: string): Option<(string, nat, string)> {
    if !(tag <= mark) then None
    else match Cut(mark[|tag|..])
      case None => None
      case Some((path, rest)) => match Cut(rest)
        case None => None
        case Some((num, rest')) => match Cut(rest')
          case None => None
          case Some((date, end)) =>
            if end == "*\n" && num != "" && AllDigits(num) then Some((path, Value(num), date)) else None
  }

  lemma MarkReads(tag: string, path: string, num: nat, date: Date)
    requires SeparatorFree(path)
    ensures ReadMark(tag, tag + path + "!" + Print(num) + "!" + date + "!*\n") == Some((path, num, date))
  {
    PrintIsDigits(num);
    NumbersAreSeparatorFree(num);
    hide Cut, Print, Value;
    var mark := tag + path + "!" + Print(num) + "!" + date + "!*\n";
    var rest := Print(num) + "!" + (date + "!" + "*\n");
    assert mark[|tag|..] == path + "!" + rest;
    CutField(path, rest);
    CutField(Print(num), date + "!" + "*\n");
    CutField(date, "*\n");
  }

  lemma PathIsSeparatorFree(base: string, num: nat)
    requires SeparatorFree(base)
    ensures SeparatorFree(Path(base, num))
  {
    NumbersAreSeparatorFree(num);
    ZerosAreSeparatorFree(10 - |Print(num)|);
  }

  lemma {:induction false} ZerosAreSeparatorFree(n: int)
    ensures n >= 0 ==> SeparatorFree(Zeros(n))
    decreases if n < 0 then 0 else n
  {
    if n > 0 {
      ZerosAreSeparatorFree(n - 1);
    }
  }

  /** The opening mark tells the file's path and number. */
  ghost predicate Opens(base: string, num: nat, sof: string) {
    exists date: Date :: ReadMark("*!SOF!", sof) == Some((Path(base, num), num, date))
  }

  /** The end mark tells the file's path and the next one's number. */
  ghost predicate Closes(base: string, num: nat, next: nat, eof: string) {
    exists date: Date :: ReadMark("*!EOF!", eof) == Some((Path(base, num), next, date))
  }

  lemma SofOpens(base: string, num: nat, sof: string)
    requires SeparatorFree(base) && IsSof(base, num, sof)
    ensures Opens(base, num, sof)
  {
    hide ReadMark, Path, Print;
    var date: Date :| sof == Sof(base, num, date);
    PathIsSeparatorFree(base, num);
    MarkReads("*!SOF!", Path(base, num), num, date);
  }

  lemma EofCloses(base: string, num: nat, eof: string)
    requires SeparatorFree(base) && IsEof(base, num, eof)
    ensures Closes(base, num, num + 1, eof)
  {
    hide ReadMark, Path, Print;
    var date: Date :| eof == Eof(base, num, date);
    PathIsSeparatorFree(base, num);
    MarkReads("*!EOF!", Path(base, num), num + 1, date);
  }

  /** Whole lines only. */
  predicate LineAligned(s: string) {
    s != "" ==> s[|s| - 1] == '\n'
  }

  predicate OneLine(s: string) {
    s != "" && s[|s| - 1] == '\n' && '\n' !in s[..|s| - 1]
  }

  predicate EndsWith(s: string, t: string) {
    |t| <= |s| && s[|s| - |t|..] == t
  }

  /** A file is over the limit, but was not before its last line. */
  predicate OverOnlyByLastLine(p: Parts, max: nat)
    requires p.overflow.Some?
  {
    var line := p.overflow.value;
    && OneLine(line) && EndsWith(p.body, line)
    && |p.sof| + |p.body| > max
    && (p.body == line || |p.sof| + |p.body| - |line| <= max)
  }

  /** A file rotated out is over the limit by its last line; any other is within it, or holds no line. */
  predicate Sized(p: Parts, max: nat) {
    if p.overflow.Some? then OverOnlyByLastLine(p, max) else p.body == "" || |p.sof| + |p.body| <= max
  }

  /** A closed file: its marks carry its own number and the next, and no line is split. */
  ghost predicate ClosedFile(base: string, f: CaptureFile, p: Parts, max: nat) {
    && f.text == p.sof + p.body + p.eof
    && IsSof(base, f.num, p.sof) && IsEof(base, f.num, p.eof)
    && LineAligned(p.body)
    && Sized(p, max)
  }

  ghost predicate ClosedFiles(base: string, fs: seq<CaptureFile>, ps: seq<Parts>, max: nat) {
    && |fs| == |ps|
    && (forall i :: 0 <= i < |fs| ==> fs[i].num == fs[0].num + i)
    && (forall i :: 0 <= i < |fs| ==> ClosedFile(base, fs[i], ps[i], max))
  }

  ghost function Bodies(ps: seq<Parts>): string {
    if ps == [] then "" else Bodies(ps[..|ps| - 1]) + ps[|ps| - 1].body
  }

  lemma ClosedFilesAppend(base: string, fs: seq<CaptureFile>, ps: seq<Parts>, max: nat, f: CaptureFile, p: Parts)
    requires ClosedFiles(base, fs, ps, max) && ClosedFile(base, f, p, max)
    requires fs != [] ==> f.num == fs[|fs| - 1].num + 1
    ensures ClosedFiles(base, fs + [f], ps + [p], max)
    ensures Bodies(ps + [p]) == Bodies(ps) + p.body
  {
    assert (ps + [p])[..|ps|] == ps;
  }

  /** Appending to a text and to its end. */
  lemma EndsWithAppend(body: string, end: string, t: string)
    requires EndsWith(body, end)
    ensures EndsWith(body + t, end + t)
    ensures (body + t)[..|body + t| - |end + t|] == body[..|body| - |end|]
    ensures body + t == end + t <==> body == end
  {
    assert (body + t)[|body| - |end|..] == end + t;
    if body + t == end + t {
      assert |body| == |end|;
      assert body == (body + t)[..|body|] == (end + t)[..|end|] == end;
    }
  }

  lemma Reassociate(a: string, b: string, c: string)
    ensures a + (b + c) == a + b + c
  {
  }

  /** A line is complete: the text is whole lines, and over the limit only because of that line. */
  lemma LineDone(sof: string, body: string, current: string, t: string, max: nat)
    requires EndsWith(body, current) && '\n' !in current && OneLine(t)
    requires body == current || |sof| + |body| - |current| <= max
    ensures LineAligned(body + t) && (body + t)[..|body + t|] == body + t && EndsWith(body + t, "")
    ensures |sof| + |body + t| > max
      ==> OverOnlyByLastLine(Parts(sof, body + t, "", Some(current + t)), max)
  {
    EndsWithAppend(body, current, t);
    var line := current + t;
    assert line[|line| - 1] == t[|t| - 1];
    assert line[..|line| - 1] == current + t[..|t| - 1];
    assert (body + t)[|body + t| - 1] == t[|t| - 1];
  }

  /**
   * What a process leaves behind between two lines: closed files, and the newest one without its end
   * mark, if there is one.
   */
  ghost predicate LeftBehind(base: string, max: nat, closed: seq<CaptureFile>, newest: Option<CaptureFile>,
                             parts: seq<Parts>, sof: string, body: string) {
    && ClosedFiles(base, closed, parts, max)
    && match newest
      case None => closed == []
      case Some(f) =>
        && f.text == sof + body && IsSof(base, f.num, sof) && LineAligned(body)
        && (body == "" || |sof| + |body| <= max)
        && (closed != [] ==> f.num == closed[|closed| - 1].num + 1)
  }

  lemma MarksAreMarks(base: string, num: nat, eofDate: Date, sofDate: Date)
    ensures IsEof(base, num, Eof(base, num, eofDate)) && IsSof(base, num + 1, Sof(base, num + 1, sofDate))
  {
  }

  lemma SameOverflow(sof: string, body: string, eof: string, line: string, max: nat)
    requires OverOnlyByLastLine(Parts(sof, body, "", Some(line)), max)
    ensures OverOnlyByLastLine(Parts(sof, body, eof, Some(line)), max)
  {
  }

  lemma Reopened(sof: string)
    ensures EndsWith("", "") && LineAligned("") && sof + "" == sof
  {
  }

  class Chain {
    const base: string
    const max: nat
    var closed: seq<CaptureFile>
    var num: nat
    var text: string  // the open file
    var size: nat

    // the view the invariant speaks about
    ghost var parts: seq<Parts>
    ghost var sof: string
    ghost var body: string
    ghost var current: string  // the head of a line whose end is still to come

    ghost predicate Valid()
      reads this
    {
      && ClosedFiles(base, closed, parts, max)
      && (closed != [] ==> num == closed[|closed| - 1].num + 1)
      && IsSof(base, num, sof)
      && text == sof + body && size == |text|
      && OpenFileFits()
    }

    /** The open file holds whole lines and then `current`; without `current` it is within the limit. */
    ghost predicate OpenFileFits()
      reads this
    {
      && '\n' !in current && EndsWith(body, current)
      && LineAligned(body[..|body| - |current|])
      && (body == current || |sof| + |body| - |current| <= max)
    }

    /** Everything the listener handed over, in order. */
    ghost function Captured(): string
      reads this
    {
      Bodies(parts) + body
    }

    /**
     * A new process finds the directory a previous one left between two lines: all closed but the
     * newest file, which it closes before it starts the next.
     */
    constructor (base: string, max: nat, closed: seq<CaptureFile>, newest: Option<CaptureFile>,
                 sofDate: Date, eofDate: Date,
                 ghost parts: seq<Parts>, ghost sof: string, ghost body: string)
      requires LeftBehind(base, max, closed, newest, parts, sof, body)
      ensures Valid() && this.base == base && this.max == max && current == ""
      ensures Captured() == Bodies(parts) + if newest.Some? then body else ""
      ensures num == if newest.Some? then newest.value.num + 1 else 1
      ensures |this.closed| == |closed| + if newest.Some? then 1 else 0
    {
      this.base, this.max := base, max;
      this.body, this.current := "", "";
      var n := 1;
      this.closed, this.parts := closed, parts;
      if newest.Some? {
        var f := newest.value;
        var eof := Eof(base, f.num, eofDate);
        n := f.num + 1;
        var g := f.(text := f.text + eof);
        ghost var p := Parts(sof, body, eof, None);
        ClosedFilesAppend(base, closed, parts, max, g, p);
        this.closed, this.parts := closed + [g], parts + [p];
      }
      var s := Sof(base, n, sofDate);
      num, text, size := n, s, |s|;
      this.sof := s;
    }

    /** Between two lines, what is on disk is what a new process can go on from. */
    lemma CanBeRestarted()
      requires Valid() && current == ""
      ensures LeftBehind(base, max, closed, Some(CaptureFile(num, text)), parts, sof, body)
    {
      assert body[..|body| - |current|] == body;
    }

    /** Append to the open file without looking at the limit: the head of a spilled line. */
    method WriteHead(t: string)
      requires Valid() && '\n' !in t
      modifies this
      ensures Valid() && Captured() == old(Captured()) + t
      ensures current == old(current) + t
      ensures num == old(num) && closed == old(closed) && parts == old(parts)
    {
      EndsWithAppend(body, current, t);
      Reassociate(Bodies(parts), body, t);
      Reassociate(sof, body, t);
      text := text + t;
      size := size + |t|;
      body := body + t;
      current := current + t;
    }

    /** The part of a line up to its line feed; then a new file if this one is over the limit. */
    method WriteLine(t: string, sofDate: Date, eofDate: Date)
      requires Valid() && OneLine(t)
      modifies this
      ensures Valid() && Captured() == old(Captured()) + t
      ensures current == ""
      ensures num == old(num) + if old(size) + |t| > max then 1 else 0
      ensures |closed| - old(|closed|) == num - old(num)
      ensures old(closed) <= closed && old(parts) <= parts
      ensures old(size) + |t| > max ==>
        |parts| == old(|parts|) + 1 && parts[old(|parts|)].overflow == Some(old(current) + t)
      ensures old(size) + |t| <= max ==> parts == old(parts)
    {
      hide OverOnlyByLastLine, ClosedFiles, IsSof, EndsWith, LineAligned, OneLine, Bodies;
      ghost var line := current + t;
      AppendLine(t);
      if size > max {
        Rotate(sofDate, eofDate, line);
      }
    }

    method AppendLine(t: string)
      requires OpenFileFits() && text == sof + body && size == |text| && OneLine(t)
      modifies this`text, this`size, this`body, this`current
      ensures Captured() == old(Captured()) + t && current == ""
      ensures text == sof + body && size == |text| == old(size) + |t| && LineAligned(body)
      ensures size <= max ==> OpenFileFits()
      ensures size > max ==> OverOnlyByLastLine(Parts(sof, body, "", Some(old(current) + t)), max)
    {
      LineDone(sof, body, current, t, max);
      Reassociate(Bodies(parts), body, t);
      Reassociate(sof, body, t);
      text := text + t;
      size := size + |t|;
      body := body + t;
      current := "";
    }

    /** Write the end mark, close, and start the next file. */
    method Rotate(sofDate: Date, eofDate: Date, ghost line: string)
      requires ClosedFiles(base, closed, parts, max)
      requires closed != [] ==> num == closed[|closed| - 1].num + 1
      requires IsSof(base, num, sof) && text == sof + body && LineAligned(body) && current == ""
      requires OverOnlyByLastLine(Parts(sof, body, "", Some(line)), max)
      modifies this
      ensures Valid() && Captured() == old(Captured()) && current == ""
      ensures num == old(num) + 1
      ensures |closed| == old(|closed|) + 1 && old(closed) <= closed
      ensures |parts| == old(|parts|) + 1 && old(parts) <= parts
      ensures var p := parts[old(|parts|)]; p.sof == old(sof) && p.body == old(body) && p.overflow == Some(line)
    {
      hide Sof, Eof, IsSof, IsEof, EndsWith, OneLine, Bodies;
      var eof := Eof(base, num, eofDate);
      var f := CaptureFile(num, text + eof);
      ghost var p := Parts(sof, body, eof, Some(line));
      MarksAreMarks(base, num, eofDate, sofDate);
      SameOverflow(sof, body, eof, line, max);
      ClosedFilesAppend(base, closed, parts, max, f, p);
      closed, parts := closed + [f], parts + [p];
      num := num + 1;
      text := Sof(base, num, sofDate);
      size := |text|;
      sof, body := text, "";
      Reopened(sof);
    }
  }

  // ----- any sequence of writes, rotations and clean restarts

  datatype Op =
    | Head(text: string)
    | LineEnd(text: string, sofDate: Date, eofDate: Date)
    | Restart(sofDate: Date, eofDate: Date)

  /** Heads hold no line feed, line ends end with their only one, and restarts are between lines. */
  predicate OpsOk(ops: seq<Op>) {
    forall i :: 0 <= i < |ops| ==> OpOk(ops, i)
  }

  predicate OpOk(ops: seq<Op>, i: nat)
    requires i < |ops|
  {
    match ops[i]
    case Head(t) => '\n' !in t
    case LineEnd(t, _, _) => OneLine(t)
    case Restart(_, _) => i == 0 || !ops[i - 1].Head?
  }

  function Handed(ops: seq<Op>): string {
    if ops == [] then ""
    else
      var op := ops[|ops| - 1];
      Handed(ops[..|ops| - 1]) + if op.Restart? then "" else op.text
  }

  /**
   * Over every such sequence: all files are well formed and numbered from 1 without a gap, their marks
   * name them and the file that follows, and their bodies put together are exactly what was handed
   * over.
   */
  method RunChain(base: string, max: nat, ops: seq<Op>, sofDate: Date) returns (c: Chain)
    requires OpsOk(ops) && SeparatorFree(base)
    ensures fresh(c) && c.Valid() && c.Captured() == Handed(ops)
    ensures c.num == |c.closed| + 1 && forall i :: 0 <= i < |c.closed| ==> c.closed[i].num == i + 1
    ensures |c.parts| == |c.closed| && c.Captured() == Bodies(c.parts) + c.body
    ensures forall i :: 0 <= i < |c.closed| ==>
      && ClosedFile(base, c.closed[i], c.parts[i], max)
      && Opens(base, i + 1, c.parts[i].sof)
      && Closes(base, i + 1, if i + 1 < |c.closed| then c.closed[i + 1].num else c.num, c.parts[i].eof)
    ensures c.text == c.sof + c.body && Opens(base, c.num, c.sof)
  {
    hide *;
    c := RunOps(base, max, ops, sofDate);
    Numbered(c);
    AllClosed(c);
    AllMarked(c);
  }

  method RunOps(base: string, max: nat, ops: seq<Op>, sofDate: Date) returns (c: Chain)
    requires OpsOk(ops)
    ensures fresh(c) && c.Valid() && c.base == base && c.max == max
    ensures c.Captured() == Handed(ops) && c.num == |c.closed| + 1
  {
    hide Chain.Valid, OneLine, LeftBehind;
    NothingLeft(base, max);
    c := new Chain(base, max, [], None, sofDate, "", [], "", "");
    for n := 0 to |ops|
      invariant fresh(c) && c.Valid() && c.base == base && c.max == max
      invariant c.Captured() == Handed(ops[..n])
      invariant c.current == "" || (n > 0 && ops[n - 1].Head?)
      invariant c.num == |c.closed| + 1
    {
      assert ops[..n + 1][..n] == ops[..n];
      assert OpOk(ops, n);
      match ops[n] {
        case Head(t) => c.WriteHead(t);
        case LineEnd(t, sof, eof) => c.WriteLine(t, sof, eof);
        case Restart(sof, eof) =>
          c.CanBeRestarted();
          ghost var body := c.body;
          c := new Chain(base, max, c.closed, Some(CaptureFile(c.num, c.text)), sof, eof, c.parts, c.sof, body);
      }
    }
    assert ops[..|ops|] == ops;
  }

  lemma NothingLeft(base: string, max: nat)
    ensures LeftBehind(base, max, [], None, [], "", "") && Bodies([]) == ""
  {
  }

  lemma AllClosed(c: Chain)
    requires c.Valid()
    ensures |c.parts| == |c.closed| && c.Captured() == Bodies(c.parts) + c.body
    ensures forall i :: 0 <= i < |c.closed| ==> ClosedFile(c.base, c.closed[i], c.parts[i], c.max)
  {
  }

  lemma AllMarked(c: Chain)
    requires c.Valid() && SeparatorFree(c.base) && c.num == |c.closed| + 1
    requires forall i :: 0 <= i < |c.closed| ==> c.closed[i].num == i + 1
    ensures forall i :: 0 <= i < |c.closed| ==>
      && Opens(c.base, i + 1, c.parts[i].sof)
      && Closes(c.base, i + 1, if i + 1 < |c.closed| then c.closed[i + 1].num else c.num, c.parts[i].eof)
    ensures c.text == c.sof + c.body && Opens(c.base, c.num, c.sof)
  {
    hide IsSof, IsEof, Opens, Closes, Sized;
    SofOpens(c.base, c.num, c.sof);
    forall i | 0 <= i < |c.closed|
      ensures Opens(c.base, i + 1, c.parts[i].sof) && Closes(c.base, i + 1, i + 2, c.parts[i].eof)
    {
      assert ClosedFile(c.base, c.closed[i], c.parts[i], c.max);
      SofOpens(c.base, i + 1, c.parts[i].sof);
      EofCloses(c.base, i + 1, c.parts[i].eof);
    }
  }

  lemma Numbered(c: Chain)
    requires c.Valid() && c.num == |c.closed| + 1
    ensures forall i :: 0 <= i < |c.closed| ==> c.closed[i].num == i + 1
  {
    if c.closed != [] {
      assert c.closed[|c.closed| - 1].num == c.closed[0].num + (|c.closed| - 1);
    }
  }
}
