/** The dot-command tokenizer, which cuts and unescapes the line in place. */
module Tokenizer {
  import opened Bytes
  import opened CQuoting

  const MAX_ARGS: nat := 50

  predicate IsSpace(c: byte) {
    c == SPACE || 9 <= c <= 13
  }

  function Spaces(s: seq<byte>): (n: nat)
    ensures n <= |s|
    ensures n < |s| ==> !IsSpace(s[n])
  {
    if s == [] || !IsSpace(s[0]) then 0 else 1 + Spaces(s[1..])
  }

  /** Bytes before the closing delimiter; a backslash hides what follows it between double quotes. */
  function DelimitedLength(s: seq<byte>, delim: byte): (n: nat)
    ensures n <= |s|
    ensures n < |s| ==> s[n] == delim
    decreases |s|
  {
    if s == [] || s[0] == delim then 0
    else
      var k := Stride(s, delim);
      k + DelimitedLength(s[k..], delim)
  }

  function Stride(s: seq<byte>, delim: byte): (k: nat)
    requires s != []
    ensures 1 <= k <= 2 && k <= |s|
  {
    if s[0] == BACKSLASH && delim == DQUOTE && |s| > 1 then 2 else 1
  }

  function WordLength(s: seq<byte>): (n: nat)
    ensures n <= |s|
    ensures n < |s| ==> IsSpace(s[n])
  {
    if s == [] || IsSpace(s[0]) then 0 else 1 + WordLength(s[1..])
  }

  /** What is left behind a token of `n` bytes and the byte that ended it. */
  function Behind(s: seq<byte>, n: nat): seq<byte>
    requires n <= |s|
  {
    if n < |s| then s[n + 1..] else []
  }

  /** The value of the token that `t` starts with, and the rest of the line. */
  function Token(t: seq<byte>): (r: (seq<byte>, seq<byte>))
    requires t != []
    ensures |r.1| < |t|
  {
    if t[0] == QUOTE || t[0] == DQUOTE then
      var s := t[1..];
      var n := DelimitedLength(s, t[0]);
      (if t[0] == DQUOTE then Unescape(s[..n]) else s[..n], Behind(s, n))
    else
      var n := WordLength(t);
      (Unescape(t[..n]), if n == 0 then t[1..] else Behind(t, n))
  }

  /** The arguments of a line, at most `room` of them. */
  function Tokens(s: seq<byte>, room: nat): (r: seq<seq<byte>>)
    ensures |r| <= room
    decreases |s|
  {
    var t := s[Spaces(s)..];
    if t == [] || room == 0 then []
    else [Token(t).0] + Tokens(Token(t).1, room - 1)
  }

  // ----- the tokenizer as it runs

  /** The part of the line from `h` on is still as it was. */
  ghost predicate Ahead(a: array<byte>, h: nat, rest: seq<byte>)
    reads a
  {
    Holds(a, h, rest) && NulFree(rest)
  }

  /** The arguments found so far, all of them behind `h`, or ending where the line ends. */
  ghost predicate Found(a: array<byte>, h: nat, rest: seq<byte>, args: seq<nat>, vals: seq<seq<byte>>)
    reads a
  {
    && |args| == |vals|
    && forall k :: 0 <= k < |args| ==>
         Holds(a, args[k], vals[k]) && args[k] + |vals[k]| < h + (if rest == [] then 1 else 0)
  }

  method Tokenize(a: array<byte>, ghost line: seq<byte>) returns (args: seq<nat>)
    requires Ahead(a, 0, line) && line != []
    modifies a
    ensures |args| == |Tokens(line[1..], MAX_ARGS)|
    ensures forall k :: 0 <= k < |args| ==> Holds(a, args[k], Tokens(line[1..], MAX_ARGS)[k])
  {
    hide Tokens, Token, Ahead;
    args := [];
    var h := 1;
    ghost var rest, vals := line[1..], [];
    ghost var all := Tokens(rest, MAX_ARGS);
    Advance(a, 0, line, 1);
    while a[h] != NUL && |args| < MAX_ARGS
      invariant Ahead(a, h, rest) && h < a.Length && |args| <= MAX_ARGS
      invariant a[h] == NUL <==> rest == []
      invariant Found(a, h, rest, args, vals)
      invariant all == vals + Tokens(rest, MAX_ARGS - |args|)
      decreases |rest|
    {
      TokensStep(rest, MAX_ARGS - |args|);
      ghost var t := rest[Spaces(rest)..];
      h := SkipSpaces(a, h, rest);
      if a[h] == NUL {
        rest := [];
        break;
      }
      ghost var v := Token(t);
      ghost var before := vals;
      var start, h' := TakeToken(a, h, t);
      args, vals := args + [start], vals + [v.0];
      h, rest := h', v.1;
      assert before + ([v.0] + Tokens(rest, MAX_ARGS - |args|)) == vals + Tokens(rest, MAX_ARGS - |args|);
    }
    NoTokens(rest, MAX_ARGS - |args|);
  }

  lemma NoTokens(s: seq<byte>, room: nat)
    ensures s == [] || room == 0 ==> Tokens(s, room) == []
  {
  }

  lemma TokensStep(s: seq<byte>, room: nat)
    ensures var t := s[Spaces(s)..];
      Tokens(s, room) == if t == [] || room == 0 then [] else [Token(t).0] + Tokens(Token(t).1, room - 1)
    ensures Tokens([], room) == []
  {
  }

  lemma Advance(a: array<byte>, h: nat, rest: seq<byte>, n: nat)
    requires Ahead(a, h, rest) && n <= |rest|
    ensures Ahead(a, h + n, rest[n..]) && h + n < a.Length
    ensures a[h + n] == NUL <==> rest[n..] == []
    ensures n < |rest| ==> a[h + n] == rest[n]
  {
  }

  method SkipSpaces(a: array<byte>, h0: nat, ghost s: seq<byte>) returns (h: nat)
    requires Ahead(a, h0, s)
    ensures h == h0 + Spaces(s) && Ahead(a, h, s[Spaces(s)..]) && h < a.Length
    ensures a[h] == NUL <==> s[Spaces(s)..] == []
  {
    h := h0;
    ghost var n := 0;
    assert s[0..] == s;
    Advance(a, h0, s, 0);
    while IsSpace(a[h])
      invariant n <= |s| && h == h0 + n < a.Length
      invariant n + Spaces(s[n..]) == Spaces(s)
      invariant n < |s| ==> a[h] == s[n]
      invariant n == |s| ==> a[h] == NUL
      decreases |s| - n
    {
      assert s[n..][1..] == s[n + 1..];
      h, n := h + 1, n + 1;
    }
    Advance(a, h0, s, n);
  }

  /** One token: terminated and unescaped in place, nothing before `h` touched. */
  method TakeToken(a: array<byte>, h: nat, ghost t: seq<byte>) returns (start: nat, next: nat)
    requires Ahead(a, h, t) && t != [] && !IsSpace(t[0])
    modifies a
    ensures Ahead(a, next, Token(t).1) && h < next < a.Length
    ensures a[next] == NUL <==> Token(t).1 == []
    ensures h <= start && Holds(a, start, Token(t).0)
    ensures start + |Token(t).0| < next + (if Token(t).1 == [] then 1 else 0)
    ensures forall k :: 0 <= k < h ==> a[k] == old(a[k])
  {
    if a[h] == QUOTE || a[h] == DQUOTE {
      var delim := a[h];
      start := h + 1;
      ghost var s := t[1..];
      Advance(a, h, t, 1);
      var end := FindDelimiter(a, start, delim, s);
      ghost var n := DelimitedLength(s, delim);
      next := CutAt(a, start, end, s);
      if delim == DQUOTE {
        Unquote(a, start, next, s[..n], Behind(s, n));
      }
    } else {
      start := h;
      var end := FindSpace(a, start, t);
      ghost var n := WordLength(t);
      next := CutAt(a, start, end, t);
      Unquote(a, start, next, t[..n], Behind(t, n));
    }
  }

  lemma DelimitedStep(s: seq<byte>, n: nat, delim: byte)
    requires n < |s| && s[n] != delim
    ensures var k := Stride(s[n..], delim);
      n + k <= |s| && DelimitedLength(s[n..], delim) == k + DelimitedLength(s[n + k..], delim)
  {
    assert s[n..][Stride(s[n..], delim)..] == s[n + Stride(s[n..], delim)..];
  }

  lemma DelimitedStops(s: seq<byte>, n: nat, delim: byte)
    requires n <= |s| && (n == |s| || s[n] == delim)
    ensures DelimitedLength(s[n..], delim) == 0
  {
  }

  method FindDelimiter(a: array<byte>, h0: nat, delim: byte, ghost s: seq<byte>) returns (h: nat)
    requires Ahead(a, h0, s) && delim != NUL
    ensures h == h0 + DelimitedLength(s, delim)
  {
    hide DelimitedLength;
    h := h0;
    ghost var n := 0;
    assert s[0..] == s;
    while a[h] != NUL && a[h] != delim
      invariant n <= |s| && h == h0 + n < a.Length
      invariant n + DelimitedLength(s[n..], delim) == DelimitedLength(s, delim)
      decreases |s| - n
    {
      assert n < |s|;
      ghost var k := Stride(s[n..], delim);
      DelimitedStep(s, n, delim);
      if a[h] == BACKSLASH && delim == DQUOTE && a[h + 1] != NUL {
        h := h + 1;
      }
      h := h + 1;
      n := n + k;
    }
    DelimitedStops(s, n, delim);
  }

  method FindSpace(a: array<byte>, h0: nat, ghost s: seq<byte>) returns (h: nat)
    requires Ahead(a, h0, s)
    ensures h == h0 + WordLength(s)
  {
    h := h0;
    ghost var n := 0;
    assert s[0..] == s;
    while a[h] != NUL && !IsSpace(a[h])
      invariant n <= |s| && h == h0 + n < a.Length
      invariant n + WordLength(s[n..]) == WordLength(s)
      decreases |s| - n
    {
      assert n < |s| && s[n..][1..] == s[n + 1..];
      h, n := h + 1, n + 1;
    }
  }

  /** Put a terminator at `end`, unless the line ends there. */
  method CutAt(a: array<byte>, start: nat, end: nat, ghost s: seq<byte>) returns (next: nat)
    requires Ahead(a, start, s) && start <= end <= start + |s|
    modifies a
    ensures next == if end - start < |s| then end + 1 else end
    ensures Holds(a, start, s[..end - start]) && NulFree(s[..end - start])
    ensures Ahead(a, next, Behind(s, end - start)) && next < a.Length
    ensures a[next] == NUL <==> Behind(s, end - start) == []
    ensures forall k :: 0 <= k < start ==> a[k] == old(a[k])
  {
    next := end;
    if a[end] != NUL {
      a[end] := NUL;
      next := end + 1;
    }
  }

  method Unquote(a: array<byte>, start: nat, next: nat, ghost raw: seq<byte>, ghost rest: seq<byte>)
    requires Holds(a, start, raw) && NulFree(raw) && start + |raw| <= next
    requires Ahead(a, next, rest)
    modifies a
    ensures Holds(a, start, Unescape(raw)) && |Unescape(raw)| <= |raw|
    ensures Ahead(a, next, rest) && (a[next] == NUL <==> rest == [])
    ensures forall k :: 0 <= k < start ==> a[k] == old(a[k])
  {
    UnescapeShrinks(raw);
    ResolveBackslashes(a, start, raw);
  }

  // ----- printing arguments and reading them back

  /** Arguments printed one after the other, a space between two. */
  function Printed(args: seq<seq<byte>>, isPrint: byte -> bool): seq<byte> {
    if args == [] then []
    else CQuoted(args[0], isPrint) + if |args| == 1 then [] else [SPACE] + Printed(args[1..], isPrint)
  }

  /** The tokenizer finds the closing quote of a printed string, and no other. */
  lemma {:induction false} PrintedStringEnds(z: seq<byte>, isPrint: byte -> bool, rest: seq<byte>)
    requires NulFree(z)
    ensures DelimitedLength(Escape(z, isPrint) + ([DQUOTE] + rest), DQUOTE) == |Escape(z, isPrint)|
    decreases |z|
  {
    hide EscapeByte, DelimitedLength;
    var tail := [DQUOTE] + rest;
    if z == [] {
      assert Escape(z, isPrint) + tail == tail && tail[0..] == tail;
      DelimitedStops(tail, 0, DQUOTE);
    } else {
      var e, more := EscapeByte(z[0], isPrint), Escape(z[1..], isPrint) + tail;
      PrintedStringEnds(z[1..], isPrint, rest);
      assert Escape(z, isPrint) + tail == e + more;
      PassEscape(z[0], isPrint, more);
    }
  }

  /** No byte of an escape ends the token. */
  lemma PassEscape(c: byte, isPrint: byte -> bool, more: seq<byte>)
    ensures var e := EscapeByte(c, isPrint);
      DelimitedLength(e + more, DQUOTE) == |e| + DelimitedLength(more, DQUOTE)
  {
    var e := EscapeByte(c, isPrint);
    if |e| == 1 {
      PassPlain(e[0], more);
      assert e + more == [e[0]] + more;
    } else if |e| == 2 {
      assert (e + more)[2..] == more;
    } else {
      var d := e[2..];
      assert (e + more)[2..] == d + more;
      assert d + more == [d[0]] + ([d[1]] + more);
      PassPlain(d[0], [d[1]] + more);
      PassPlain(d[1], more);
    }
  }

  lemma PassPlain(c: byte, more: seq<byte>)
    requires c != DQUOTE && c != BACKSLASH
    ensures DelimitedLength([c] + more, DQUOTE) == 1 + DelimitedLength(more, DQUOTE)
  {
    assert ([c] + more)[1..] == more;
  }

  lemma PrintedTokenComesBack(z: seq<byte>, isPrint: byte -> bool, rest: seq<byte>)
    requires NulFree(z)
    ensures Token(CQuoted(z, isPrint) + rest) == (z, rest)
  {
    hide Escape, Unescape, DelimitedLength;
    var t := CQuoted(z, isPrint) + rest;
    var s := Escape(z, isPrint) + ([DQUOTE] + rest);
    assert t[1..] == s;
    PrintedStringEnds(z, isPrint, rest);
    UnescapeEscape(z, isPrint);
    assert s[..|Escape(z, isPrint)|] == Escape(z, isPrint);
    assert s[|Escape(z, isPrint)| + 1..] == rest;
  }

  /** Any NUL-free arguments come back, up to the limit of the argument array. */
  lemma {:induction false} ArgumentsComeBack(args: seq<seq<byte>>, isPrint: byte -> bool, room: nat)
    requires forall k :: 0 <= k < |args| ==> NulFree(args[k])
    ensures Tokens(Printed(args, isPrint), room) == if |args| <= room then args else args[..room]
    decreases |args|
  {
    hide Token, CQuoted, Tokens;
    PrintedStartsWithQuote(args, isPrint);
    if args == [] || room == 0 {
      NoTokens(Printed(args, isPrint), room);
    } else {
      FirstArgumentComesBack(args, isPrint, room);
      ArgumentsComeBack(args[1..], isPrint, room - 1);
    }
  }

  lemma FirstArgumentComesBack(args: seq<seq<byte>>, isPrint: byte -> bool, room: nat)
    requires args != [] && room > 0 && NulFree(args[0])
    ensures Tokens(Printed(args, isPrint), room) == [args[0]] + Tokens(Printed(args[1..], isPrint), room - 1)
  {
    hide Token, CQuoted, Tokens;
    var s, more := Printed(args, isPrint), Printed(args[1..], isPrint);
    var rest := if |args| == 1 then [] else [SPACE] + more;
    PrintedStartsWithQuote(args, isPrint);
    assert s[0..] == s;
    assert s == CQuoted(args[0], isPrint) + rest;
    PrintedTokenComesBack(args[0], isPrint, rest);
    TokensStep(s, room);
    if |args| > 1 {
      PrintedStartsWithQuote(args[1..], isPrint);
      LeadingSpace(more, room - 1);
    }
  }

  lemma PrintedStartsWithQuote(args: seq<seq<byte>>, isPrint: byte -> bool)
    ensures args != [] ==> Printed(args, isPrint) != [] && Spaces(Printed(args, isPrint)) == 0
  {
    if args != [] {
      assert Printed(args, isPrint)[0] == DQUOTE;
    }
  }

  lemma LeadingSpace(s: seq<byte>, room: nat)
    requires Spaces(s) == 0
    ensures Tokens([SPACE] + s, room) == Tokens(s, room)
  {
    hide Token;
    assert ([SPACE] + s)[1..] == s;
    assert s[0..] == s;
    TokensStep([SPACE] + s, room);
    TokensStep(s, room);
  }

  const DOT: byte := 46

  lemma EscapedByteIsNulFree(c: byte, isPrint: byte -> bool)
    requires c != NUL
    ensures NulFree(EscapeByte(c, isPrint))
  {
  }

  lemma {:induction false} EscapedIsNulFree(z: seq<byte>, isPrint: byte -> bool)
    requires NulFree(z)
    ensures NulFree(Escape(z, isPrint))
  {
    hide EscapeByte;
    if z != [] {
      EscapedByteIsNulFree(z[0], isPrint);
      EscapedIsNulFree(z[1..], isPrint);
    }
  }

  lemma {:induction false} PrintedIsNulFree(args: seq<seq<byte>>, isPrint: byte -> bool)
    requires forall k :: 0 <= k < |args| ==> NulFree(args[k])
    ensures NulFree(Printed(args, isPrint))
  {
    hide Escape;
    if args != [] {
      EscapedIsNulFree(args[0], isPrint);
      PrintedIsNulFree(args[1..], isPrint);
    }
  }

  /** A command line made of printed arguments: the tokenizer leaves each of them where it says. */
  method TokenizePrinted(a: array<byte>, ghost args: seq<seq<byte>>, ghost isPrint: byte -> bool)
    returns (starts: seq<nat>)
    requires Holds(a, 0, [DOT] + Printed(args, isPrint))
    requires forall k :: 0 <= k < |args| ==> NulFree(args[k])
    modifies a
    ensures |starts| == if |args| <= MAX_ARGS then |args| else MAX_ARGS
    ensures forall k :: 0 <= k < |starts| ==> Holds(a, starts[k], args[k])
  {
    hide Printed, Tokens;
    ghost var line := [DOT] + Printed(args, isPrint);
    PrintedIsNulFree(args, isPrint);
    ArgumentsComeBack(args, isPrint, MAX_ARGS);
    assert line[1..] == Printed(args, isPrint);
    starts := Tokenize(a, line);
  }

  // ----- arguments of every kind

  /** An argument in C quotes, in single quotes, or as a bare word. */
  /** A value as the shell prints it, or a text between double quotes, between single quotes or bare. */
  datatype Arg = Escaped(z: seq<byte>) | Double(z: seq<byte>) | Single(z: seq<byte>) | Word(z: seq<byte>)

  const BLANKS: set<byte> := {9, 10, 11, 12, 13, 32}

  /** Every double quote is behind a backslash, and every backslash is before something. */
  predicate Guarded(z: seq<byte>)
    decreases |z|
  {
    z == [] || (if z[0] == BACKSLASH then |z| > 1 && Guarded(z[2..]) else z[0] != DQUOTE && Guarded(z[1..]))
  }

  /** Single quotes hold anything but a single quote; a word holds no blank and begins with no quote. */
  predicate ArgOk(a: Arg) {
    && NulFree(a.z)
    && match a
       case Escaped(_) => true
       case Double(z) => Guarded(z)
       case Single(z) => QUOTE !in z
       case Word(z) => z != [] && z[0] != QUOTE && z[0] != DQUOTE && forall i :: 0 <= i < |z| ==> z[i] !in BLANKS
  }

  /** What an argument stands for: nothing is unescaped between single quotes, and all else is. */
  function Meant(a: Arg): seq<byte> {
    if a.Double? || a.Word? then Unescape(a.z) else a.z
  }

  function Shown(a: Arg, isPrint: byte -> bool): seq<byte> {
    match a
    case Escaped(z) => CQuoted(z, isPrint)
    case Double(z) => [DQUOTE] + z + [DQUOTE]
    case Single(z) => [QUOTE] + z + [QUOTE]
    case Word(z) => z
  }

  predicate Blank(gap: seq<byte>) {
    forall i :: 0 <= i < |gap| ==> gap[i] in BLANKS
  }

  /** A gap before each argument, and one at the end; only the outer ones may be empty. */
  predicate GapsOk(gaps: seq<seq<byte>>) {
    && gaps != []
    && (forall i :: 0 <= i < |gaps| ==> Blank(gaps[i]))
    && (forall i :: 0 < i < |gaps| - 1 ==> gaps[i] != [])
  }

  function Laid(args: seq<Arg>, gaps: seq<seq<byte>>, isPrint: byte -> bool): seq<byte>
    requires |gaps| == |args| + 1
  {
    if args == [] then gaps[0]
    else gaps[0] + (Shown(args[0], isPrint) + Laid(args[1..], gaps[1..], isPrint))
  }

  function Values(args: seq<Arg>): (r: seq<seq<byte>>)
    ensures |r| == |args|
  {
    seq(|args|, i requires 0 <= i < |args| => Meant(args[i]))
  }

  lemma {:induction false} UnescapePlain(z: seq<byte>)
    requires BACKSLASH !in z
    ensures Unescape(z) == z
  {
    if z != [] {
      UnescapePlain(z[1..]);
    }
  }

  lemma {:induction false} SingleEnds(z: seq<byte>, rest: seq<byte>)
    requires QUOTE !in z
    ensures DelimitedLength(z + ([QUOTE] + rest), QUOTE) == |z|
  {
    if z == [] {
      assert z + ([QUOTE] + rest) == [QUOTE] + rest;
    } else {
      assert (z + ([QUOTE] + rest))[1..] == z[1..] + ([QUOTE] + rest);
      SingleEnds(z[1..], rest);
    }
  }

  /** Nothing is unescaped between single quotes. */
  lemma SingleComesBack(z: seq<byte>, rest: seq<byte>)
    requires QUOTE !in z
    ensures Token([QUOTE] + z + [QUOTE] + rest) == (z, rest)
  {
    hide Unescape, DelimitedLength;
    var t, s := [QUOTE] + z + [QUOTE] + rest, z + ([QUOTE] + rest);
    assert t[1..] == s;
    SingleEnds(z, rest);
    assert s[..|z|] == z && s[|z| + 1..] == rest;
  }

  lemma {:induction false} DoubleEnds(z: seq<byte>, rest: seq<byte>)
    requires Guarded(z)
    ensures DelimitedLength(z + ([DQUOTE] + rest), DQUOTE) == |z|
    decreases |z|
  {
    var s := z + ([DQUOTE] + rest);
    if z == [] {
      assert s == [DQUOTE] + rest;
    } else {
      var k := if z[0] == BACKSLASH then 2 else 1;
      assert s[k..] == z[k..] + ([DQUOTE] + rest);
      DoubleEnds(z[k..], rest);
    }
  }

  /** Between double quotes a guarded quote does not end the argument. */
  lemma DoubleComesBack(z: seq<byte>, rest: seq<byte>)
    requires Guarded(z)
    ensures Token([DQUOTE] + z + [DQUOTE] + rest) == (Unescape(z), rest)
  {
    hide Unescape, DelimitedLength;
    var t, s := [DQUOTE] + z + [DQUOTE] + rest, z + ([DQUOTE] + rest);
    assert t[1..] == s;
    DoubleEnds(z, rest);
    assert s[..|z|] == z && s[|z| + 1..] == rest;
  }

  lemma {:induction false} NeverEnds(z: seq<byte>, delim: byte)
    requires if delim == DQUOTE then Guarded(z) else delim !in z
    ensures DelimitedLength(z, delim) == |z|
    decreases |z|
  {
    if z != [] {
      NeverEnds(z[Stride(z, delim)..], delim);
    }
  }

  /** An argument that is never closed goes to the end of the line. */
  lemma UnclosedComesBack(z: seq<byte>)
    ensures QUOTE !in z ==> Token([QUOTE] + z) == (z, [])
    ensures Guarded(z) ==> Token([DQUOTE] + z) == (Unescape(z), [])
  {
    hide Unescape, DelimitedLength;
    assert ([QUOTE] + z)[1..] == z && ([DQUOTE] + z)[1..] == z && z[..|z|] == z;
    if QUOTE !in z {
      NeverEnds(z, QUOTE);
    }
    if Guarded(z) {
      NeverEnds(z, DQUOTE);
    }
  }

  lemma {:induction false} WordEnds(w: seq<byte>, rest: seq<byte>)
    requires forall i :: 0 <= i < |w| ==> w[i] !in BLANKS
    requires rest == [] || rest[0] in BLANKS
    ensures WordLength(w + rest) == |w|
  {
    if w == [] {
      assert w + rest == rest;
    } else {
      assert (w + rest)[1..] == w[1..] + rest;
      WordEnds(w[1..], rest);
    }
  }

  /** A bare word ends at the next blank, which is dropped with it; it is unescaped like quoted text. */
  lemma WordComesBack(w: seq<byte>, rest: seq<byte>)
    requires ArgOk(Word(w)) && (rest == [] || rest[0] in BLANKS)
    ensures Token(w + rest) == (Unescape(w), if rest == [] then [] else rest[1..])
    ensures BACKSLASH !in w ==> Token(w + rest).0 == w
  {
    hide Unescape, WordLength;
    WordEnds(w, rest);
    assert (w + rest)[..|w|] == w;
    if rest != [] {
      assert (w + rest)[|w| + 1..] == rest[1..];
    }
    if BACKSLASH !in w {
      UnescapePlain(w);
    }
  }

  lemma {:induction false} BlanksAreSpaces(gap: seq<byte>, t: seq<byte>)
    requires Blank(gap) && (t == [] || t[0] !in BLANKS)
    ensures Spaces(gap + t) == |gap|
  {
    if gap == [] {
      assert gap + t == t;
    } else {
      assert (gap + t)[1..] == gap[1..] + t;
      BlanksAreSpaces(gap[1..], t);
    }
  }

  lemma OneBlankLess(s: seq<byte>, room: nat)
    requires s != [] && s[0] in BLANKS
    ensures Tokens(s[1..], room) == Tokens(s, room)
  {
    hide Token;
    assert s[1..][Spaces(s[1..])..] == s[Spaces(s)..];
    TokensStep(s, room);
    TokensStep(s[1..], room);
  }

  lemma ShownStarts(a: Arg, isPrint: byte -> bool)
    requires ArgOk(a)
    ensures Shown(a, isPrint) != [] && Shown(a, isPrint)[0] !in BLANKS
  {
  }

  /** Behind an argument comes a blank or the end. */
  lemma BehindAnArgument(args: seq<Arg>, gaps: seq<seq<byte>>, isPrint: byte -> bool)
    requires |gaps| == |args| + 1 && Blank(gaps[0]) && (args != [] ==> gaps[0] != [])
    ensures var rest := Laid(args, gaps, isPrint); rest == [] || rest[0] in BLANKS
  {
  }

  lemma FirstOfLine(a: Arg, rest: seq<byte>, isPrint: byte -> bool, gap: seq<byte>, room: nat)
    requires ArgOk(a) && Blank(gap) && room > 0 && (rest == [] || rest[0] in BLANKS)
    ensures Tokens(gap + (Shown(a, isPrint) + rest), room) == [Meant(a)] + Tokens(rest, room - 1)
  {
    hide Token, CQuoted, Tokens, Spaces;
    var t := Shown(a, isPrint) + rest;
    var s := gap + t;
    ShownStarts(a, isPrint);
    BlanksAreSpaces(gap, t);
    assert s[|gap|..] == t;
    TokensStep(s, room);
    match a
    case Escaped(z) => PrintedTokenComesBack(z, isPrint, rest);
    case Double(z) => DoubleComesBack(z, rest);
    case Single(z) => SingleComesBack(z, rest);
    case Word(z) =>
      WordComesBack(z, rest);
      if rest != [] {
        OneBlankLess(rest, room - 1);
      }
  }

  /** Arguments of every kind, with any blanks between them, come back, up to the array's limit. */
  lemma {:induction false} MixedArgumentsComeBack(args: seq<Arg>, gaps: seq<seq<byte>>, isPrint: byte -> bool,
                                                  room: nat)
    requires |gaps| == |args| + 1 && GapsOk(gaps)
    requires forall k :: 0 <= k < |args| ==> ArgOk(args[k])
    ensures Tokens(Laid(args, gaps, isPrint), room)
         == if |args| <= room then Values(args) else Values(args)[..room]
    decreases |args|
  {
    hide Token, Tokens, Shown;
    var s := Laid(args, gaps, isPrint);
    if args == [] {
      BlanksAreSpaces(gaps[0], []);
      assert gaps[0] + [] == gaps[0];
      TokensStep(s, room);
    } else if room == 0 {
      TokensStep(s, room);
    } else {
      var rest := Laid(args[1..], gaps[1..], isPrint);
      BehindAnArgument(args[1..], gaps[1..], isPrint);
      FirstOfLine(args[0], rest, isPrint, gaps[0], room);
      MixedArgumentsComeBack(args[1..], gaps[1..], isPrint, room - 1);
      assert Values(args) == [Meant(args[0])] + Values(args[1..]);
    }
  }

  lemma {:induction false} LaidIsNulFree(args: seq<Arg>, gaps: seq<seq<byte>>, isPrint: byte -> bool)
    requires |gaps| == |args| + 1 && GapsOk(gaps)
    requires forall k :: 0 <= k < |args| ==> ArgOk(args[k])
    ensures NulFree(Laid(args, gaps, isPrint))
    decreases |args|
  {
    hide Escape;
    assert Blank(gaps[0]);
    if args != [] {
      EscapedIsNulFree(args[0].z, isPrint);
      if |args| > 1 {
        assert GapsOk(gaps[1..]);
      }
      LaidIsNulFree(args[1..], gaps[1..], isPrint);
    }
  }

  /** A command line of such arguments: the tokenizer leaves each of them where it says, fifty at most. */
  method TokenizeMixed(a: array<byte>, ghost args: seq<Arg>, ghost gaps: seq<seq<byte>>, ghost isPrint: byte -> bool)
    returns (starts: seq<nat>)
    requires |gaps| == |args| + 1 && GapsOk(gaps)
    requires forall k :: 0 <= k < |args| ==> ArgOk(args[k])
    requires Holds(a, 0, [DOT] + Laid(args, gaps, isPrint))
    modifies a
    ensures |starts| == if |args| <= 50 then |args| else 50
    ensures forall k :: 0 <= k < |starts| ==> Holds(a, starts[k], Meant(args[k]))
  {
    hide Laid, Tokens, ArgOk, GapsOk;
    ghost var line := [DOT] + Laid(args, gaps, isPrint);
    LaidIsNulFree(args, gaps, isPrint);
    MixedArgumentsComeBack(args, gaps, isPrint, MAX_ARGS);
    assert line[1..] == Laid(args, gaps, isPrint);
    starts := Tokenize(a, line);
  }
}
