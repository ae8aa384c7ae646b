/** The offset-plus-escape code that stores arbitrary bytes as SQL text. */
module BinaryCodec {
  import opened Bytes

  const X: byte := 120  // the whole encoding of the empty string

  /** An offset is itself written as text, so it may be neither a terminator nor a quote. */
  predicate Allowed(e: byte) {
    e != NUL && e != QUOTE
  }

  predicate Escaped(c: byte) {
    c == 0 || c == 1 || c == QUOTE
  }

  function Shift(b: byte, e: byte): byte {
    (b - e) % 256
  }

  function Unshift(c: byte, e: byte): byte {
    (c + e) % 256
  }

  function EncodeByte(c: byte): seq<byte> {
    if c == 0 then [1, 1] else if c == 1 then [1, 2] else if c == QUOTE then [1, 3] else [c]
  }

  /** The escaped text of `x` under offset `e`. */
  function EncodeBody(e: byte, x: seq<byte>): seq<byte> {
    if x == [] then [] else EncodeByte(Shift(x[0], e)) + EncodeBody(e, x[1..])
  }

  /** How many bytes of `x` need an escape under offset `e`. */
  function Escapes(e: byte, x: seq<byte>): nat {
    if x == [] then 0 else Hit(e, x[0]) + Escapes(e, x[1..])
  }

  function Hit(e: byte, b: byte): nat {
    if Escaped(Shift(b, e)) then 1 else 0
  }

  /** The least escapes over all allowed offsets, and the smallest offset that reaches it. */
  ghost predicate IsBest(e: byte, x: seq<byte>) {
    && Allowed(e)
    && (forall f: byte :: Allowed(f) ==> Escapes(e, x) <= Escapes(f, x))
    && (forall f: byte :: Allowed(f) && f < e ==> Escapes(e, x) < Escapes(f, x))
  }

  /** `s` is what the encoder writes for `x`, without the terminator. */
  ghost predicate IsEncoding(s: seq<byte>, x: seq<byte>) {
    if x == [] then s == [X]
    else s != [] && IsBest(s[0], x) && s[1..] == EncodeBody(s[0], x)
  }

  /** Encoding `x` fits a buffer of `size` bytes, terminator included. */
  ghost predicate Room(x: seq<byte>, size: int) {
    if x == [] then 2 <= size
    else exists e: byte :: Allowed(e) && |x| + Escapes(e, x) + 2 <= size
  }

  /** Text that the decoder accepts and that SQL can carry between quotes. */
  ghost predicate QuoteFree(s: seq<byte>) {
    forall i :: 0 <= i < |s| ==> s[i] != NUL && s[i] != QUOTE
  }

  function Prepend(a: seq<byte>, r: Option<seq<byte>>): Option<seq<byte>> {
    match r case None => None case Some(t) => Some(a + t)
  }

  function Unescape(c: byte): Option<byte> {
    if c == 1 then Some(0) else if c == 2 then Some(1) else if c == 3 then Some(QUOTE) else None
  }

  /** Decoding of the text after the offset byte; None where the code returns -1. */
  function DecodeBody(e: byte, s: seq<byte>): Option<seq<byte>> {
    if s == [] then Some([])
    else if s[0] != 1 then Prepend([Unshift(s[0], e)], DecodeBody(e, s[1..]))
    else if |s| == 1 || Unescape(s[1]) == None then None
    else Prepend([Unshift(Unescape(s[1]).value, e)], DecodeBody(e, s[2..]))
  }

  function Decode(s: seq<byte>): Option<seq<byte>>
    requires s != []
  {
    DecodeBody(s[0], s[1..])
  }

  // ----- the shape of encoded text

  lemma {:induction false} EncodeBodyAppend(e: byte, x: seq<byte>, y: seq<byte>)
    ensures EncodeBody(e, x + y) == EncodeBody(e, x) + EncodeBody(e, y)
  {
    if x == [] {
      assert x + y == y;
    } else {
      assert (x + y)[1..] == x[1..] + y;
      EncodeBodyAppend(e, x[1..], y);
    }
  }

  lemma {:induction false} EscapesAppend(e: byte, x: seq<byte>, y: seq<byte>)
    ensures Escapes(e, x + y) == Escapes(e, x) + Escapes(e, y)
  {
    if x == [] {
      assert x + y == y;
    } else {
      assert (x + y)[1..] == x[1..] + y;
      EscapesAppend(e, x[1..], y);
    }
  }

  /** Every byte costs one, and every escaped byte one more; nothing forbidden is written. */
  lemma {:induction false} EncodeBodyShape(e: byte, x: seq<byte>)
    ensures |EncodeBody(e, x)| == |x| + Escapes(e, x)
    ensures QuoteFree(EncodeBody(e, x))
  {
    if x != [] {
      EncodeBodyShape(e, x[1..]);
    }
  }

  lemma {:induction false} DecodeEncodeBody(e: byte, x: seq<byte>)
    ensures DecodeBody(e, EncodeBody(e, x)) == Some(x)
  {
    if x != [] {
      DecodeEncodeBody(e, x[1..]);
      var c := Shift(x[0], e);
      var rest := EncodeBody(e, x[1..]);
      var s := EncodeBody(e, x);
      assert s == EncodeByte(c) + rest;
      assert Unshift(c, e) == x[0];
      assert x == [x[0]] + x[1..];
      if Escaped(c) {
        assert s[2..] == rest;
      } else {
        assert s[1..] == rest;
      }
    }
  }

  lemma UnshiftThenShift(c: byte, e: byte)
    ensures Shift(Unshift(c, e), e) == c
  {
  }

  /** Quote-free text decodes to bytes whose encoding under the same offset is that very text. */
  lemma {:induction false} EncodeDecodeBody(e: byte, s: seq<byte>)
    requires QuoteFree(s) && DecodeBody(e, s).Some?
    ensures EncodeBody(e, DecodeBody(e, s).value) == s
  {
    hide Shift, Unshift;
    if s != [] {
      var k := if s[0] == 1 then 2 else 1;
      EncodeDecodeBody(e, s[k..]);
      var c := if s[0] == 1 then Unescape(s[1]).value else s[0];
      var b := Unshift(c, e);
      var x := DecodeBody(e, s).value;
      assert x == [b] + DecodeBody(e, s[k..]).value;
      assert x[1..] == DecodeBody(e, s[k..]).value;
      UnshiftThenShift(c, e);
      assert s == s[..k] + s[k..];
      assert EncodeByte(c) == s[..k];
    }
  }

  // ----- the size bound

  /** Sum of the escape counts over the allowed offsets below `k`. */
  ghost function SumEscapes(k: nat, x: seq<byte>): nat
    requires k <= 256
  {
    if k == 0 then 0
    else SumEscapes(k - 1, x) + if Allowed(k - 1) then Escapes(k - 1, x) else 0
  }

  ghost function SumHits(k: nat, b: byte): nat
    requires k <= 256
  {
    if k == 0 then 0
    else SumHits(k - 1, b) + if Allowed(k - 1) then Hit(k - 1, b) else 0
  }

  ghost function AllowedBelow(k: nat): nat {
    if k == 0 then 0 else if k <= QUOTE then k - 1 else k - 2
  }

  /** The three offsets that escape a byte. */
  lemma HitWhen(e: byte, b: byte)
    ensures Hit(e, b) == 1 ==> e == b || e == (b - 1) % 256 || e == (b - QUOTE) % 256
  {
  }

  lemma HitAtMostOne(e: byte, b: byte)
    ensures Hit(e, b) <= 1
  {
  }

  /** One input byte is escaped under at most three offsets. */
  lemma {:induction false} HitsBelow(k: nat, b: byte)
    requires k <= 256
    ensures SumHits(k, b) <= (if b < k then 1 else 0) + (if (b - 1) % 256 < k then 1 else 0)
                             + (if (b - QUOTE) % 256 < k then 1 else 0)
  {
    hide Hit;
    if k != 0 {
      HitsBelow(k - 1, b);
      HitWhen(k - 1, b);
      assert Hit(k - 1, b) <= 1 by { HitAtMostOne(k - 1, b); }
    }
  }

  lemma {:induction false} SumEscapesCons(k: nat, b: byte, x: seq<byte>)
    requires k <= 256
    ensures SumEscapes(k, [b] + x) == SumHits(k, b) + SumEscapes(k, x)
  {
    if k != 0 {
      SumEscapesCons(k - 1, b, x);
      assert ([b] + x)[1..] == x;
    }
  }

  lemma {:induction false} SumEscapesNil(k: nat)
    requires k <= 256
    ensures SumEscapes(k, []) == 0
  {
    if k != 0 {
      SumEscapesNil(k - 1);
    }
  }

  /** Counting each input byte once for every offset that escapes it. */
  lemma {:induction false} SumEscapesBound(x: seq<byte>)
    ensures SumEscapes(256, x) <= 3 * |x|
  {
    if x == [] {
      SumEscapesNil(256);
    } else {
      SumEscapesBound(x[1..]);
      assert x == [x[0]] + x[1..];
      SumEscapesCons(256, x[0], x[1..]);
      HitsBelow(256, x[0]);
    }
  }

  lemma TimesSuccessor(a: nat, m: nat)
    ensures (a + 1) * m == a * m + m
  {
  }

  lemma {:induction false} SumEscapesAtLeast(k: nat, m: nat, x: seq<byte>)
    requires k <= 256
    requires forall f: byte :: Allowed(f) && f < k ==> m <= Escapes(f, x)
    ensures AllowedBelow(k) * m <= SumEscapes(k, x)
  {
    if k != 0 {
      SumEscapesAtLeast(k - 1, m, x);
      if Allowed(k - 1) {
        TimesSuccessor(AllowedBelow(k - 1), m);
      }
    }
  }

  /** A lower bound on every allowed offset's escapes is at most 3n/254. */
  lemma LeastEscapesBound(m: nat, x: seq<byte>)
    requires forall f: byte :: Allowed(f) ==> m <= Escapes(f, x)
    ensures 254 * m <= 3 * |x|
  {
    SumEscapesBound(x);
    SumEscapesAtLeast(256, m, x);
  }

  /** Some allowed offset stays within the documented expansion. */
  lemma SomeOffsetFits(x: seq<byte>) returns (e: byte)
    ensures Allowed(e) && 254 * Escapes(e, x) <= 3 * |x|
  {
    if forall f: byte :: Allowed(f) ==> 254 * Escapes(f, x) > 3 * |x| {
      var m := 3 * |x| / 254 + 1;
      assert forall f: byte :: Allowed(f) ==> m <= Escapes(f, x);
      LeastEscapesBound(m, x);
    }
    e :| Allowed(e) && 254 * Escapes(e, x) <= 3 * |x|;
  }

  /** The size the encoder's documentation asks for is room enough for any bytes. */
  lemma DocumentedSizeHasRoom(x: seq<byte>)
    ensures forall size :: size >= 2 + (257 * |x|) / 254 ==> Room(x, size)
  {
    if x != [] {
      var e := SomeOffsetFits(x);
    }
  }

  /**
   * What a caller of the encoder relies on: the text carries no terminator and no quote, has
   * length at most 1 + 257n/254, and decodes to the input.
   */
  lemma EncodingMeetsItsPromise(s: seq<byte>, x: seq<byte>)
    requires IsEncoding(s, x)
    ensures s != [] && QuoteFree(s)
    ensures |s| + 1 <= 2 + (257 * |x|) / 254
    ensures Decode(s) == Some(x)
  {
    if x != [] {
      var e := s[0];
      EncodeBodyShape(e, x);
      DecodeEncodeBody(e, x);
      LeastEscapesBound(Escapes(e, x), x);
      assert QuoteFree([e] + s[1..]);
      assert s == [e] + s[1..];
    } else {
      assert s[1..] == [];
    }
  }

  /** The encoder is a function of its input: there is one best offset. */
  lemma EncodingIsUnique(s: seq<byte>, t: seq<byte>, x: seq<byte>)
    requires IsEncoding(s, x) && IsEncoding(t, x)
    ensures s == t
  {
    if x != [] {
      assert s == [s[0]] + s[1..] && t == [t[0]] + t[1..];
      assert s[0] == t[0];
    }
  }

  /**
   * Decoding quote-free text and encoding the bytes again never makes the text longer, because
   * the text is the encoding under one allowed offset and the encoder takes the best.
   */
  lemma ReencodingIsNoLonger(s: seq<byte>, t: seq<byte>)
    requires s != [] && QuoteFree(s) && Decode(s).Some?
    requires IsEncoding(t, Decode(s).value)
    ensures |t| <= |s|
  {
    var x := Decode(s).value;
    EncodeDecodeBody(s[0], s[1..]);
    EncodeBodyShape(s[0], x);
    if x != [] {
      EncodeBodyShape(t[0], x);
      assert Allowed(s[0]);
    }
  }

  // ----- the encoder and the decoder as they run

  /** The escape count of an offset read from the table of byte counts. */
  lemma HitFromCounts(e: byte, b: byte)
    ensures Hit(e, b) == multiset{b}[e] + multiset{b}[(e + 1) % 256] + multiset{b}[(e + QUOTE) % 256]
  {
  }

  lemma {:induction false} EscapesFromCounts(e: byte, x: seq<byte>)
    ensures Escapes(e, x) == multiset(x)[e] + multiset(x)[(e + 1) % 256] + multiset(x)[(e + QUOTE) % 256]
  {
    if x != [] {
      EscapesFromCounts(e, x[1..]);
      HitFromCounts(e, x[0]);
      assert x == [x[0]] + x[1..];
      assert multiset(x) == multiset{x[0]} + multiset(x[1..]);
    }
  }

  method CountBytes(input: array<byte>, n: nat) returns (cnt: seq<nat>)
    requires n <= input.Length
    ensures |cnt| == 256
    ensures forall b: byte :: cnt[b] == multiset(input[..n])[b]
  {
    cnt := seq(256, _ => 0);
    var i := n;
    assert input[n..n] == [];
    while i > 0
      invariant 0 <= i <= n && |cnt| == 256
      invariant forall b: byte :: cnt[b] == multiset(input[i..n])[b]
    {
      i := i - 1;
      assert input[i..n] == [input[i]] + input[i + 1..n];
      cnt := cnt[input[i] := cnt[input[i]] + 1];
    }
    assert input[0..n] == input[..n];
  }

  /** The offset search: it always assigns, and what it assigns is the best offset. */
  method BestOffset(cnt: seq<nat>, n: nat, ghost x: seq<byte>) returns (e: byte)
    requires x != [] && n == |x| && |cnt| == 256
    requires forall b: byte :: cnt[b] == multiset(x)[b]
    ensures IsBest(e, x)
  {
    var m := n;
    e := 0;
    var i := 1;
    while i < 256 && m != 0
      invariant 1 <= i <= 256
      invariant e == 0 ==> m == |x|
      invariant e != 0 ==> Allowed(e) && e < i && m == Escapes(e, x)
      invariant forall f: byte :: Allowed(f) && f < i ==> m <= Escapes(f, x)
      invariant e != 0 ==> forall f: byte :: Allowed(f) && f < e ==> m < Escapes(f, x)
    {
      if i != QUOTE {
        var sum := cnt[i] + cnt[(i + 1) % 256] + cnt[(i + QUOTE) % 256];
        EscapesFromCounts(i, x);
        if sum < m {
          m := sum;
          e := i;
        }
      }
      i := i + 1;
    }
    if e == 0 {
      LeastEscapesBound(|x|, x);
    }
  }

  method Encode(input: array<byte>, n: int, out: array<byte>) returns (j: nat)
    requires n <= input.Length && input != out
    requires Room(if n > 0 then input[..n] else [], out.Length)
    modifies out
    ensures j < out.Length && CString(out, out[..j])
    ensures IsEncoding(out[..j], if n > 0 then input[..n] else [])
  {
    if n <= 0 {
      out[0], out[1] := X, NUL;
      return 1;
    }
    var cnt := CountBytes(input, n);
    ghost var x := input[..n];
    var e := BestOffset(cnt, n, x);
    j := EncodeFrom(input, n, e, out);
    out[j] := NUL;
    assert out[..j][1..] == EncodeBody(e, x);
    EncodingMeetsItsPromise(out[..j], x);
  }

  /** The output loop for the chosen offset. */
  method EncodeFrom(input: array<byte>, n: nat, e: byte, out: array<byte>) returns (j: nat)
    requires n <= input.Length && input != out
    requires out.Length >= 2 + n + Escapes(e, input[..n])
    modifies out
    ensures 1 <= j < out.Length
    ensures out[..j] == [e] + EncodeBody(e, input[..n])
  {
    ghost var x := input[..n];
    out[0] := e;
    j := 1;
    for i := 0 to n
      invariant j == 1 + i + Escapes(e, x[..i])
      invariant j < out.Length && out[..j] == [e] + EncodeBody(e, x[..i])
      invariant x == input[..n]
    {
      EmitOne(e, x, i);
      j := Emit(out, j, Shift(input[i], e));
    }
    assert x[..n] == x;
  }

  method Emit(out: array<byte>, at: nat, c: byte) returns (j: nat)
    requires at + |EncodeByte(c)| <= out.Length
    modifies out
    ensures j == at + |EncodeByte(c)|
    ensures out[..j] == old(out[..at]) + EncodeByte(c)
  {
    j := at;
    if c == 0 {
      out[j], out[j + 1] := 1, 1;
      j := j + 2;
    } else if c == 1 {
      out[j], out[j + 1] := 1, 2;
      j := j + 2;
    } else if c == QUOTE {
      out[j], out[j + 1] := 1, 3;
      j := j + 2;
    } else {
      out[j] := c;
      j := j + 1;
    }
  }

  /** One more input byte appends its code; the whole never exceeds the total for `x`. */
  lemma EmitOne(e: byte, x: seq<byte>, i: nat)
    requires i < |x|
    ensures EncodeBody(e, x[..i + 1]) == EncodeBody(e, x[..i]) + EncodeByte(Shift(x[i], e))
    ensures Escapes(e, x[..i + 1]) == Escapes(e, x[..i]) + Hit(e, x[i])
    ensures Escapes(e, x[..i + 1]) <= Escapes(e, x)
  {
    assert x[..i + 1] == x[..i] + [x[i]];
    EncodeBodyAppend(e, x[..i], [x[i]]);
    EscapesAppend(e, x[..i], [x[i]]);
    assert x == x[..i + 1] + x[i + 1..];
    EscapesAppend(e, x[..i + 1], x[i + 1..]);
  }

  /** `s` is the C string at the front of the array. */
  ghost predicate CString(a: array<byte>, s: seq<byte>)
    reads a
  {
    |s| < a.Length && a[..|s|] == s && a[|s|] == NUL && NulFree(s)
  }

  /**
   * Decoding, with `output` possibly the same array as `input`: the write index stays behind
   * the read index, so nothing is overwritten before it is read.
   */
  method DecodeArray(input: array<byte>, output: array<byte>, ghost s: seq<byte>) returns (r: int)
    requires CString(input, s) && s != []
    requires output.Length >= |s| - 1
    modifies output
    ensures Decode(s) == None ==> r == -1
    ensures Decode(s).Some? ==> 0 <= r < |s| && r == |Decode(s).value| && output[..r] == Decode(s).value
  {
    var e := input[0];
    var p := 1;
    var i := 0;
    assert output[..0] == [];
    assert Decode(s).Some? ==> [] + Decode(s).value == Decode(s).value;
    while input[p] != NUL
      invariant 0 <= i < p <= |s|
      invariant forall k :: p <= k <= |s| ==> input[k] == (s + [NUL])[k]
      invariant Decode(s) == Prepend(output[..i], DecodeBody(e, s[p..]))
      decreases |s| - p
    {
      var c := input[p];
      p := p + 1;
      assert s[p - 1..][1..] == s[p..];
      if c == 1 {
        c := input[p];
        p := p + 1;
        if c == 1 {
          c := 0;
        } else if c == 2 {
          c := 1;
        } else if c == 3 {
          c := QUOTE;
        } else {
          return -1;
        }
        assert s[p - 2..][2..] == s[p..];
      }
      ghost var before := output[..i];
      output[i] := Unshift(c, e);
      i := i + 1;
      assert output[..i] == before + [Unshift(c, e)];
      assert forall t: seq<byte> :: before + ([Unshift(c, e)] + t) == output[..i] + t;
    }
    assert s[p..] == [];
    assert output[..i] + [] == output[..i];
    r := i;
  }
}
