/** C-style quoting, and the in-place unescaping of dot-command arguments. */
module CQuoting {
  import opened Bytes

  const BACKSLASH: byte := 92
  const TAB: byte := 9
  const ZERO: byte := 48

  // ----- printing

  function OctalDigits(c: byte): seq<byte> {
    [ZERO + c / 64, ZERO + c / 8 % 8, ZERO + c % 8]
  }

  function EscapeByte(c: byte, isPrint: byte -> bool): seq<byte> {
    if c == BACKSLASH then [BACKSLASH, BACKSLASH]
    else if c == DQUOTE then [BACKSLASH, DQUOTE]
    else if c == TAB then [BACKSLASH, 116]
    else if c == LF then [BACKSLASH, 110]
    else if c == CR then [BACKSLASH, 114]
    else if !isPrint(c) then [BACKSLASH] + OctalDigits(c)
    else [c]
  }

  function Escape(z: seq<byte>, isPrint: byte -> bool): seq<byte> {
    if z == [] then [] else EscapeByte(z[0], isPrint) + Escape(z[1..], isPrint)
  }

  function CQuoted(z: seq<byte>, isPrint: byte -> bool): seq<byte> {
    [DQUOTE] + Escape(z, isPrint) + [DQUOTE]
  }

  lemma {:induction false} EscapeSnoc(z: seq<byte>, c: byte, isPrint: byte -> bool)
    ensures Escape(z + [c], isPrint) == Escape(z, isPrint) + EscapeByte(c, isPrint)
  {
    if z == [] {
      assert (z + [c])[1..] == [];
    } else {
      assert (z + [c])[1..] == z[1..] + [c];
      EscapeSnoc(z[1..], c, isPrint);
    }
  }

  /** `output_c_string`. */
  method OutputCString(z: seq<byte>, isPrint: byte -> bool) returns (out: seq<byte>)
    ensures out == CQuoted(z, isPrint)
  {
    hide EscapeByte;
    out := [DQUOTE];
    for i := 0 to |z|
      invariant out == [DQUOTE] + Escape(z[..i], isPrint)
    {
      assert z[..i + 1] == z[..i] + [z[i]];
      EscapeSnoc(z[..i], z[i], isPrint);
      var e := OutputByte(z[i], isPrint);
      out := out + e;
    }
    assert z[..|z|] == z;
    out := out + [DQUOTE];
  }

  method OutputByte(c: byte, isPrint: byte -> bool) returns (out: seq<byte>)
    ensures out == EscapeByte(c, isPrint)
  {
    if c == BACKSLASH {
      out := [c, c];
    } else if c == DQUOTE {
      out := [BACKSLASH, DQUOTE];
    } else if c == TAB {
      out := [BACKSLASH, 116];
    } else if c == LF {
      out := [BACKSLASH, 110];
    } else if c == CR {
      out := [BACKSLASH, 114];
    } else if !isPrint(c) {
      out := [BACKSLASH] + OctalDigits(c);
    } else {
      out := [c];
    }
  }

  // ----- unescaping

  predicate IsOctal(c: byte) {
    48 <= c <= 55
  }

  /** How many of the first three bytes continue an octal number. */
  function OctalRun(s: seq<byte>): (n: nat)
    ensures n <= 3 && n <= |s|
  {
    if s == [] || !IsOctal(s[0]) then 0
    else if |s| < 2 || !IsOctal(s[1]) then 1
    else if |s| < 3 || !IsOctal(s[2]) then 2
    else 3
  }

  /** The value of the octal number in a char, which wraps at 256. */
  function OctalValue(s: seq<byte>): byte
    requires OctalRun(s) > 0
  {
    var n := OctalRun(s);
    if n == 1 then s[0] - ZERO
    else if n == 2 then (8 * (s[0] - ZERO) + (s[1] - ZERO)) % 256
    else (64 * (s[0] - ZERO) + 8 * (s[1] - ZERO) + (s[2] - ZERO)) % 256
  }

  function EscapeLetter(c: byte): byte {
    if c == 97 then 7
    else if c == 98 then 8
    else if c == 116 then TAB
    else if c == 110 then LF
    else if c == 118 then 11
    else if c == 102 then 12
    else if c == 114 then CR
    else c
  }

  /** The first byte of the unescaped text, and how many bytes it was written with. */
  function Head(s: seq<byte>): (r: (byte, nat))
    requires s != []
    ensures 1 <= r.1 <= |s|
  {
    if s[0] != BACKSLASH || |s| == 1 then (s[0], 1)
    else if IsOctal(s[1]) then (OctalValue(s[1..]), 1 + OctalRun(s[1..]))
    else (EscapeLetter(s[1]), 2)
  }

  function Unescape(s: seq<byte>): seq<byte>
    decreases |s|
  {
    if s == [] then [] else [Head(s).0] + Unescape(s[Head(s).1..])
  }

  const LETTER_S: byte := 115

  /** There is no letter for the space: the one the source's comment lists stands for itself. */
  lemma NoEscapeForSpace()
    ensures Unescape([BACKSLASH, LETTER_S]) == [LETTER_S]
    ensures forall c :: EscapeLetter(c) == SPACE <==> c == SPACE
  {
    var s := [BACKSLASH, LETTER_S];
    assert s[2..] == [] && Unescape(s) == [LETTER_S] + Unescape(s[2..]);
  }

  lemma {:induction false} UnescapeShrinks(s: seq<byte>)
    ensures |Unescape(s)| <= |s|
    decreases |s|
  {
    if s != [] {
      UnescapeShrinks(s[Head(s).1..]);
    }
  }

  /** The bytes `v` are in the array at `i`, with a terminator behind them. */
  ghost predicate Holds(a: array<byte>, i: nat, v: seq<byte>)
    reads a
  {
    i + |v| < a.Length && HasAt(a, i, v) && a[i + |v|] == NUL
  }

  ghost predicate HasAt(a: array<byte>, i: nat, v: seq<byte>)
    reads a
    requires i + |v| <= a.Length
  {
    forall k :: i <= k < i + |v| ==> a[k] == v[k - i]
  }

  lemma UnescapeStep(s: seq<byte>, i: nat)
    requires i < |s|
    ensures var (c, n) := Head(s[i..]);
      i + n <= |s| && Unescape(s[i..]) == [c] + Unescape(s[i + n..])
  {
    hide Head;
    var (c, n) := Head(s[i..]);
    assert s[i..][n..] == s[i + n..];
  }

  lemma PlainStep(s: seq<byte>, i: nat)
    requires i < |s| && s[i] != BACKSLASH
    ensures Unescape(s[i..]) == [s[i]] + Unescape(s[i + 1..])
  {
    hide Unescape;
    UnescapeStep(s, i);
  }

  /** `resolve_backslashes`: unescape in place; only bytes of the string itself are written. */
  method ResolveBackslashes(a: array<byte>, start: nat, ghost s: seq<byte>)
    requires Holds(a, start, s) && NulFree(s)
    modifies a
    ensures Holds(a, start, Unescape(s))
    ensures forall k :: 0 <= k < start || start + |s| <= k < a.Length ==> a[k] == old(a[k])
  {
    hide Unescape;
    var z := SkipPlain(a, start, s);
    ghost var p := z - start;
    ghost var t := s[p..];
    var i, j := Shift(a, z, t);
    if j < i {
      a[z + j] := NUL;
    }
    assert HasAt(a, start, s[..p]) && HasAt(a, z, Unescape(t));
  }

  method SkipPlain(a: array<byte>, start: nat, ghost s: seq<byte>) returns (z: nat)
    requires Holds(a, start, s) && NulFree(s)
    ensures start <= z <= start + |s|
    ensures Unescape(s) == s[..z - start] + Unescape(s[z - start..])
  {
    hide Unescape, Head;
    z := start;
    ghost var p := 0;
    assert s[0..] == s && [] + Unescape(s) == Unescape(s);
    while a[z] != NUL && a[z] != BACKSLASH
      invariant p <= |s| && z == start + p
      invariant Unescape(s) == s[..p] + Unescape(s[p..])
      decreases |s| - p
    {
      assert p < |s|;
      PlainStep(s, p);
      assert s[..p + 1] == s[..p] + [s[p]];
      z := z + 1;
      p := p + 1;
    }
  }

  /** The loop that reads at `i` and writes at `j`, never ahead of what it reads. */
  method Shift(a: array<byte>, z: nat, ghost t: seq<byte>) returns (i: nat, j: nat)
    requires Holds(a, z, t) && NulFree(t)
    modifies a
    ensures i == |t| && j == |Unescape(t)| <= |t| && HasAt(a, z, Unescape(t))
    ensures forall k :: 0 <= k < z || z + |t| <= k < a.Length ==> a[k] == old(a[k])
  {
    hide Unescape, Head;
    i, j := 0, 0;
    ghost var u := [];
    assert t[0..] == t && u + Unescape(t) == Unescape(t);
    while a[z + i] != NUL
      invariant |u| == j <= i <= |t|
      invariant forall k :: z + i <= k <= z + |t| ==> a[k] == old(a[k])
      invariant HasAt(a, z, u)
      invariant Unescape(t) == u + Unescape(t[i..])
      invariant forall k :: 0 <= k < z || z + |t| <= k < a.Length ==> a[k] == old(a[k])
      decreases |t| - i
    {
      assert i < |t|;
      var c, n := ReadEscape(a, z + i, t[i..]);
      UnescapeStep(t, i);
      a[z + j] := c;
      u := u + [c];
      j, i := j + 1, i + n;
    }
    assert i == |t|;
    NothingLeft(t);
  }

  lemma NothingLeft(t: seq<byte>)
    ensures t[|t|..] == [] && Unescape([]) == []
  {
  }

  method ReadEscape(a: array<byte>, i: nat, ghost s: seq<byte>) returns (c: byte, n: nat)
    requires Holds(a, i, s) && NulFree(s) && s != []
    ensures (c, n) == Head(s)
  {
    assert s[0] == a[i] && (|s| > 1 ==> s[1] == a[i + 1]);
    c, n := a[i], 1;
    if c == BACKSLASH && a[i + 1] != NUL {
      c, n := a[i + 1], 2;
      if c == 97 {
        c := 7;
      } else if c == 98 {
        c := 8;
      } else if c == 116 {
        c := TAB;
      } else if c == 110 {
        c := LF;
      } else if c == 118 {
        c := 11;
      } else if c == 102 {
        c := 12;
      } else if c == 114 {
        c := CR;
      } else if IsOctal(c) {
        assert Holds(a, i + 1, s[1..]);
        c, n := ReadOctal(a, i + 1, s[1..]);
        n := n + 1;
      }
    }
  }

  method ReadOctal(a: array<byte>, i: nat, ghost s: seq<byte>) returns (c: byte, n: nat)
    requires Holds(a, i, s) && s != [] && IsOctal(s[0])
    ensures c == OctalValue(s) && n == OctalRun(s)
  {
    assert s[0] == a[i] && (|s| > 1 ==> s[1] == a[i + 1]) && (|s| > 2 ==> s[2] == a[i + 2]);
    c, n := a[i] - ZERO, 1;
    if IsOctal(a[i + 1]) {
      n := 2;
      c := (8 * c + (a[i + 1] - ZERO)) % 256;
      assert c == 8 * (s[0] - ZERO) + (s[1] - ZERO);
      if IsOctal(a[i + 2]) {
        n := 3;
        c := (8 * c + (a[i + 2] - ZERO)) % 256;
      }
    }
  }

  // ----- the round trip of one string

  lemma EscapedByteComesBack(c: byte, isPrint: byte -> bool, rest: seq<byte>)
    requires c != NUL
    ensures var s := EscapeByte(c, isPrint) + rest;
      s != [] && Head(s) == (c, |EscapeByte(c, isPrint)|)
  {
    var s := EscapeByte(c, isPrint) + rest;
    if s[0] == BACKSLASH && !(c == BACKSLASH || c == DQUOTE || c == TAB || c == LF || c == CR) {
      if !isPrint(c) {
        var t := s[1..];
        assert t[0] == ZERO + c / 64 && t[1] == ZERO + c / 8 % 8 && t[2] == ZERO + c % 8;
        assert OctalRun(t) == 3;
        assert 64 * (c / 64) + 8 * (c / 8 % 8) + c % 8 == c;
      }
    }
  }

  lemma EscapeIsNulFree(c: byte, isPrint: byte -> bool)
    requires c != NUL
    ensures NulFree(EscapeByte(c, isPrint))
  {
  }

  lemma {:induction false} UnescapeEscape(z: seq<byte>, isPrint: byte -> bool)
    requires NulFree(z)
    ensures Unescape(Escape(z, isPrint)) == z
    ensures NulFree(Escape(z, isPrint))
    decreases |z|
  {
    hide Head, EscapeByte;
    if z != [] {
      EscapeIsNulFree(z[0], isPrint);
      UnescapeEscape(z[1..], isPrint);
      var e, rest := EscapeByte(z[0], isPrint), Escape(z[1..], isPrint);
      EscapedByteComesBack(z[0], isPrint, rest);
      assert (e + rest)[|e|..] == rest;
      assert z == [z[0]] + z[1..];
    }
  }

  // ----- the letters and the numbers, apart from the code that reads them

  /** The letters a, b, t, n, v, f and r, which stand for the bytes from 7 on in this order. */
  const LETTERS: seq<byte> := [97, 98, 116, 110, 118, 102, 114]

  const OCTAL: seq<byte> := [48, 49, 50, 51, 52, 53, 54, 55]

  /** A backslash before a byte that is no octal digit: one of the seven letters, or the byte itself. */
  lemma LettersStandFor(c: byte, rest: seq<byte>)
    requires c !in OCTAL
    ensures var u := Unescape([BACKSLASH, c] + rest);
      && u != [] && u[1..] == Unescape(rest)
      && (forall k :: 0 <= k < |LETTERS| && LETTERS[k] == c ==> u[0] == 7 + k)
      && (c !in LETTERS ==> u[0] == c)
  {
    OctalIsListed(c);
    assert ([BACKSLASH, c] + rest)[2..] == rest;
  }

  function OctalNumber(digits: seq<byte>): int {
    if digits == [] then 0 else 8 * OctalNumber(digits[..|digits| - 1]) + digits[|digits| - 1] - ZERO
  }

  /** Up to three octal digits, as many as there are, are one byte: their number, modulo 256. */
  lemma OctalStandsFor(d: seq<byte>, rest: seq<byte>)
    requires 1 <= |d| <= 3 && forall i :: 0 <= i < |d| ==> d[i] in OCTAL
    requires |d| < 3 && rest != [] ==> rest[0] !in OCTAL
    ensures Unescape([BACKSLASH] + d + rest) == [OctalNumber(d) % 256] + Unescape(rest)
  {
    hide Unescape, OctalRun, OctalValue, OctalNumber, OCTAL, IsOctal;
    var s := [BACKSLASH] + d + rest;
    var t := s[1..];
    assert t == d + rest && s[1 + |d|..] == rest;
    forall i | 0 <= i < |d| ensures IsOctal(t[i]) && t[i] == d[i] {
      OctalIsListed(d[i]);
    }
    if |d| < |t| {
      assert t[|d|] == rest[0];
      OctalIsListed(rest[0]);
    }
    OctalRunIs(t, |d|);
    assert t[..|d|] == d;
    OctalValueIs(t);
    OctalHead(s);
  }

  lemma OctalHead(s: seq<byte>)
    requires |s| > 1 && s[0] == BACKSLASH && IsOctal(s[1])
    ensures Unescape(s) == [OctalValue(s[1..])] + Unescape(s[1 + OctalRun(s[1..])..])
  {
    hide OctalRun, OctalValue, IsOctal;
    assert s[1..][0] == s[1];
  }

  lemma OctalIsListed(c: byte)
    ensures IsOctal(c) <==> c in OCTAL
  {
    assert IsOctal(c) ==> OCTAL[c - 48] == c;
  }

  lemma OctalRunIs(t: seq<byte>, n: nat)
    requires 1 <= n <= 3 && n <= |t| && forall i :: 0 <= i < n ==> IsOctal(t[i])
    requires n < 3 && n < |t| ==> !IsOctal(t[n])
    ensures OctalRun(t) == n
  {
    hide IsOctal;
  }

  lemma OctalValueIs(t: seq<byte>)
    requires OctalRun(t) > 0
    ensures OctalValue(t) == OctalNumber(t[..OctalRun(t)]) % 256
  {
    hide OctalNumber, OctalRun;
    OctalOf(t[..OctalRun(t)]);
  }

  lemma OctalOf(d: seq<byte>)
    requires 1 <= |d| <= 3
    ensures OctalNumber(d) ==
      if |d| == 1 then d[0] - ZERO
      else if |d| == 2 then 8 * (d[0] - ZERO) + d[1] - ZERO
      else 64 * (d[0] - ZERO) + 8 * (d[1] - ZERO) + d[2] - ZERO
  {
    assert OctalNumber(d[..0]) == 0;
    assert d[..1][..0] == d[..0];
    if |d| > 1 {
      assert d[..2][..1] == d[..1];
      assert d[..|d|] == d;
    }
  }

  /** How a byte is printed: five behind a backslash, and the unprintable as three octal digits. */
  lemma EscapesArePrinted(c: byte, isPrint: byte -> bool)
    ensures var p := Escape([c], isPrint);
      && (c == 9 ==> p == [92, 116]) && (c == 10 ==> p == [92, 110]) && (c == 13 ==> p == [92, 114])
      && (c == 34 ==> p == [92, 34]) && (c == 92 ==> p == [92, 92])
      && (c !in {9, 10, 13, 34, 92} && isPrint(c) ==> p == [c])
      && (c !in {9, 10, 13, 34, 92} && !isPrint(c) ==>
        && |p| == 4 && p[0] == 92 && OctalNumber(p[1..]) == c
        && forall k :: 1 <= k < 4 ==> 48 <= p[k] < 56)
  {
    var p := Escape([c], isPrint);
    assert p == EscapeByte(c, isPrint) + [];
    if c !in {9, 10, 13, 34, 92} && !isPrint(c) {
      assert p[1..] == OctalDigits(c);
      OctalOf(OctalDigits(c));
    }
  }
}
