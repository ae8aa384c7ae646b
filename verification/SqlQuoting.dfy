/** SQL quoting: the printer that works in chunks, and the copies whose length is computed first. */
module SqlQuoting {
  import opened Bytes
  import opened Doubling

  function QuotedBy(q: byte, z: seq<byte>): seq<byte> {
    [q] + Doubled(q, z) + [q]
  }

  function Occurrences(q: byte, z: seq<byte>): nat {
    if z == [] then 0 else (if z[0] == q then 1 else 0) + Occurrences(q, z[1..])
  }

  /** Each pair of quotes read as one. */
  function Undoubled(q: byte, s: seq<byte>): seq<byte>
    decreases |s|
  {
    if s == [] then []
    else [s[0]] + Undoubled(q, if s[0] == q && |s| > 1 && s[1] == q then s[2..] else s[1..])
  }

  lemma {:induction false} DoubledLength(q: byte, z: seq<byte>)
    ensures |Doubled(q, z)| == |z| + Occurrences(q, z)
  {
    if z != [] {
      DoubledLength(q, z[1..]);
    }
  }

  lemma {:induction false} OccurrencesAppend(q: byte, a: seq<byte>, b: seq<byte>)
    ensures Occurrences(q, a + b) == Occurrences(q, a) + Occurrences(q, b)
  {
    if a == [] {
      assert a + b == b;
    } else {
      assert (a + b)[1..] == a[1..] + b;
      OccurrencesAppend(q, a[1..], b);
    }
  }

  lemma {:induction false} NoneDoubled(q: byte, z: seq<byte>)
    requires q !in z
    ensures Doubled(q, z) == z && Occurrences(q, z) == 0
  {
    if z != [] {
      NoneDoubled(q, z[1..]);
    }
  }

  /** Un-doubling undoes doubling. */
  lemma {:induction false} UndoubledDoubled(q: byte, z: seq<byte>)
    ensures Undoubled(q, Doubled(q, z)) == z
  {
    if z != [] {
      UndoubledDoubled(q, z[1..]);
      var rest := Doubled(q, z[1..]);
      if z[0] == q {
        assert ([q, q] + rest)[2..] == rest;
      } else {
        assert ([z[0]] + rest)[1..] == rest;
      }
      assert z == [z[0]] + z[1..];
    }
  }

  /** `output_quoted_string`: chunk by chunk, but the same as doubling every quote. */
  method OutputQuoted(z: seq<byte>) returns (out: seq<byte>)
    ensures out == QuotedBy(QUOTE, z)
  {
    var nSingle := 0;
    for i := 0 to |z|
      invariant nSingle == 0 <==> QUOTE !in z[..i]
      invariant nSingle >= 0
    {
      assert z[..i + 1] == z[..i] + [z[i]];
      if z[i] == QUOTE {
        nSingle := nSingle + 1;
      }
    }
    assert z[..|z|] == z;
    if nSingle == 0 {
      NoneDoubled(QUOTE, z);
      return [QUOTE] + z + [QUOTE];
    }
    out := [QUOTE];
    var at := 0;
    assert z[..0] == [];
    while at < |z|
      invariant 0 <= at <= |z|
      invariant out == [QUOTE] + Doubled(QUOTE, z[..at])
    {
      hide Doubled;
      var i := Chunk(z, at);
      ChunkDoubled(z, at, i);
      if at + i < |z| {
        if i == 0 {
          out := out + [QUOTE, QUOTE];
          at := at + 1;
        } else {
          out := out + (z[at..at + i] + [QUOTE, QUOTE]);
          at := at + i + 1;
        }
      } else {
        out := out + z[at..];
        at := |z|;
      }
    }
    assert z[..at] == z;
    out := out + [QUOTE];
  }

  /** What a chunk without quotes, and the quote behind it, add to the doubled text. */
  lemma ChunkDoubled(z: seq<byte>, at: nat, i: nat)
    requires at + i <= |z| && QUOTE !in z[at..at + i]
    requires at + i < |z| ==> z[at + i] == QUOTE
    ensures at + i < |z| ==>
      Doubled(QUOTE, z[..at + i + 1]) == Doubled(QUOTE, z[..at]) + (z[at..at + i] + [QUOTE, QUOTE])
    ensures at + i < |z| && i == 0 ==> Doubled(QUOTE, z[..at + 1]) == Doubled(QUOTE, z[..at]) + [QUOTE, QUOTE]
    ensures at + i == |z| ==> Doubled(QUOTE, z[..|z|]) == Doubled(QUOTE, z[..at]) + z[at..]
  {
    hide Doubled;
    var chunk := z[at..at + i];
    NoneDoubled(QUOTE, chunk);
    DoubledAppend(QUOTE, z[..at], chunk);
    assert z[..at + i] == z[..at] + chunk;
    if at + i < |z| {
      assert z[..at + i + 1] == z[..at + i] + [QUOTE];
      DoubledSnoc(QUOTE, z[..at + i], QUOTE);
      if i == 0 {
        assert chunk + [QUOTE, QUOTE] == [QUOTE, QUOTE];
      }
    }
  }

  /** The run of bytes up to the next quote. */
  method Chunk(z: seq<byte>, at: nat) returns (i: nat)
    requires at < |z|
    ensures at + i <= |z| && QUOTE !in z[at..at + i]
    ensures at + i < |z| ==> z[at + i] == QUOTE
  {
    i := 0;
    while at + i < |z| && z[at + i] != QUOTE
      invariant at + i <= |z| && QUOTE !in z[at..at + i]
    {
      assert z[at..at + i + 1] == z[at..at + i] + [z[at + i]];
      i := i + 1;
    }
  }

  /** Copy `z` with every `q` doubled to `out` from `at` on, which has exactly enough room. */
  method CopyDoubled(q: byte, z: seq<byte>, out: array<byte>, at: nat) returns (n: nat)
    requires at + |Doubled(q, z)| <= out.Length
    modifies out
    ensures n == at + |Doubled(q, z)| && out[..n] == old(out[..at]) + Doubled(q, z)
  {
    n := at;
    assert z[..0] == [];
    for i := 0 to |z|
      invariant n == at + |Doubled(q, z[..i])|
      invariant n + |Doubled(q, z[i..])| == at + |Doubled(q, z)|
      invariant out[..n] == old(out[..at]) + Doubled(q, z[..i])
    {
      assert z[..i + 1] == z[..i] + [z[i]];
      assert z[i..][1..] == z[i + 1..];
      DoubledSnoc(q, z[..i], z[i]);
      ghost var before := out[..n];
      out[n] := z[i];
      n := n + 1;
      if z[i] == q {
        out[n] := q;
        n := n + 1;
      }
      assert out[..n] == before + if z[i] == q then [q, q] else [z[i]];
    }
    assert z[..|z|] == z && z[|z|..] == [];
  }

  predicate IsAlpha(c: byte) {
    65 <= c <= 90 || 97 <= c <= 122
  }

  predicate IsAlnum(c: byte) {
    IsAlpha(c) || 48 <= c <= 57
  }

  const UNDERSCORE: byte := 95

  /** A name that stands without quotes. */
  predicate PlainName(z: seq<byte>) {
    z != [] && (IsAlpha(z[0]) || z[0] == UNDERSCORE)
    && forall i :: 0 <= i < |z| ==> IsAlnum(z[i]) || z[i] == UNDERSCORE
  }

  /** The scan of `set_table_name`: whether quotes are needed, and the length without them. */
  method ScanName(z: seq<byte>) returns (needQuote: bool, n: nat)
    ensures needQuote == !PlainName(z)
    ensures n == |z| + Occurrences(QUOTE, z)
  {
    needQuote := z == [] || (!IsAlpha(z[0]) && z[0] != UNDERSCORE);
    n := 0;
    ghost var start := needQuote;
    assert z[..0] == [];
    for i := 0 to |z|
      invariant n == i + Occurrences(QUOTE, z[..i])
      invariant needQuote == (start || exists k :: 0 <= k < i && !IsAlnum(z[k]) && z[k] != UNDERSCORE)
    {
      assert z[..i + 1] == z[..i] + [z[i]];
      OccurrencesAppend(QUOTE, z[..i], [z[i]]);
      if !IsAlnum(z[i]) && z[i] != UNDERSCORE {
        needQuote := true;
        if z[i] == QUOTE {
          n := n + 1;
        }
      }
      n := n + 1;
    }
    assert z[..|z|] == z;
  }

  const UPPER: string := "ABCDEFGHIJKLMNOPQRSTUVWXYZ"
  const LOWER: string := "abcdefghijklmnopqrstuvwxyz"
  const DIGITS: string := "0123456789"

  /** Letters, digits and underscores, and no digit first. */
  lemma PlainNameExactly(z: seq<byte>)
    ensures PlainName(z) <==>
      (&& z != [] && z[0] as char !in DIGITS
       && forall i :: 0 <= i < |z| ==> Listed(z[i]) || z[i] as char in DIGITS || z[i] as char == '_')
  {
    forall i | 0 <= i < |z| ensures IsAlpha(z[i]) <==> Listed(z[i]) {
      LettersAreListed(z[i]);
    }
    forall i | 0 <= i < |z| ensures z[i] as char in DIGITS <==> 48 <= z[i] <= 57 {
      assert 48 <= z[i] <= 57 ==> DIGITS[z[i] - 48] == z[i] as char;
    }
  }

  predicate Listed(c: byte) {
    c as char in UPPER || c as char in LOWER
  }

  lemma LettersAreListed(c: byte)
    ensures IsAlpha(c) <==> Listed(c)
  {
    UpperAreListed(c);
    LowerAreListed(c);
  }

  lemma UpperAreListed(c: byte)
    ensures 65 <= c <= 90 <==> c as char in UPPER
  {
    assert 65 <= c <= 90 ==> UPPER[c - 65] == c as char;
  }

  lemma LowerAreListed(c: byte)
    ensures 97 <= c <= 122 <==> c as char in LOWER
  {
    assert 97 <= c <= 122 ==> LOWER[c - 97] == c as char;
  }

  lemma PlainNameHasNoQuote(z: seq<byte>)
    requires PlainName(z)
    ensures QUOTE !in z
  {
  }

  /** `set_table_name`: the computed length is the length written, terminator aside. */
  method SetTableName(z: seq<byte>) returns (out: array<byte>)
    ensures fresh(out)
    ensures var name := if PlainName(z) then z else QuotedBy(QUOTE, z);
      out.Length == |name| + 1 && out[..|name|] == name && out[|name|] == NUL
  {
    hide PlainName, Doubled, Occurrences;
    var needQuote, n := ScanName(z);
    DoubledLength(QUOTE, z);
    if needQuote {
      n := n + 2;
    } else {
      PlainNameHasNoQuote(z);
      NoneDoubled(QUOTE, z);
    }
    out := new byte[n + 1];
    n := 0;
    if needQuote {
      out[n] := QUOTE;
      n := n + 1;
    }
    assert out[..n] == if needQuote then [QUOTE] else [];
    n := CopyDoubled(QUOTE, z, out, n);
    if needQuote {
      out[n] := QUOTE;
      n := n + 1;
    }
    out[n] := NUL;
  }

  method CountQuotes(z: seq<byte>, quote: byte) returns (n: nat)
    ensures n == Occurrences(quote, z)
  {
    n := 0;
    assert z[..0] == [];
    for i := 0 to |z|
      invariant n == Occurrences(quote, z[..i])
    {
      assert z[..i + 1] == z[..i] + [z[i]];
      OccurrencesAppend(quote, z[..i], [z[i]]);
      if z[i] == quote {
        n := n + 1;
      }
    }
    assert z[..|z|] == z;
  }

  lemma QuotedParts(prefix: seq<byte>, q: byte, z: seq<byte>)
    ensures prefix + QuotedBy(q, z) == prefix + [q] + Doubled(q, z) + [q]
    ensures |QuotedBy(q, z)| == |Doubled(q, z)| + 2
  {
  }

  /** `appendText` with a quote character: the assertion in the source, that the length is exact. */
  method AppendText(prefix: seq<byte>, z: seq<byte>, quote: byte) returns (out: array<byte>)
    ensures fresh(out)
    ensures var text := prefix + if quote != NUL then QuotedBy(quote, z) else z;
      out.Length == |text| + 1 && out[..|text|] == text && out[|text|] == NUL
  {
    hide Doubled, Occurrences;
    hide QuotedBy;
    var len := |z| + |prefix| + 1;
    QuotedParts(prefix, quote, z);
    if quote != NUL {
      var quotes := CountQuotes(z, quote);
      len := len + 2 + quotes;
      DoubledLength(quote, z);
    }
    out := new byte[len];
    forall i | 0 <= i < |prefix| {
      out[i] := prefix[i];
    }
    var n := |prefix|;
    assert out[..n] == prefix;
    if quote != NUL {
      out[n] := quote;
      assert out[..n + 1] == prefix + [quote];
      n := CopyDoubled(quote, z, out, n + 1);
      out[n], out[n + 1] := quote, NUL;
      n := n + 2;
      assert out[..n - 1] == prefix + [quote] + Doubled(quote, z) + [quote];
    } else {
      forall i | 0 <= i < |z| {
        out[n + i] := z[i];
      }
      out[len - 1] := NUL;
      assert out[..len - 1] == prefix + z;
    }
  }
}
