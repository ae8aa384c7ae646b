/** The code's text byte by byte: what one byte is written as, and which texts are code at all. */
module BinaryText {
  import opened Bytes
  import opened BinaryCodec

  /** A byte as it is written: its distance from the offset, or a mark and a number for three of them. */
  lemma ByteIsWritten(e: byte, b: byte)
    ensures var c := if b >= e then b - e else 256 + b - e;
      EncodeBody(e, [b]) ==
        if c == 0 then [1, 1] else if c == 1 then [1, 2] else if c == 39 then [1, 3] else [c]
  {
    assert [b][1..] == [] && EncodeBody(e, []) == [];
  }

  /** What may follow in a text: a byte that is no mark, or a mark with one of three numbers. */
  predicate Unit(u: seq<byte>) {
    (|u| == 1 && u[0] != 1) || (|u| == 2 && u[0] == 1 && u[1] in {1, 2, 3})
  }

  function Joined(us: seq<seq<byte>>): seq<byte> {
    if us == [] then [] else us[0] + Joined(us[1..])
  }

  /** The byte a unit stands for. */
  function Meant(e: byte, u: seq<byte>): byte
    requires Unit(u)
  {
    ((if |u| == 1 then u[0] else if u[1] == 1 then 0 else if u[1] == 2 then 1 else 39) + e) % 256
  }

  ghost predicate Cut(us: seq<seq<byte>>, s: seq<byte>) {
    Joined(us) == s && forall i :: 0 <= i < |us| ==> Unit(us[i])
  }

  /** A text of units is read unit by unit. */
  lemma {:induction false} UnitsAreRead(e: byte, us: seq<seq<byte>>)
    requires forall i :: 0 <= i < |us| ==> Unit(us[i])
    ensures var x := DecodeBody(e, Joined(us));
      x.Some? && |x.value| == |us| && forall i :: 0 <= i < |us| ==> x.value[i] == Meant(e, us[i])
  {
    if us != [] {
      var rest := us[1..];
      UnitsAreRead(e, rest);
      assert Joined(us) == us[0] + Joined(rest);
      assert Joined(us)[|us[0]|..] == Joined(rest);
    }
  }

  /** Exactly the texts of units are read; every other one is refused. */
  lemma {:induction false} ReadExactly(e: byte, s: seq<byte>)
    ensures DecodeBody(e, s).Some? <==> exists us :: Cut(us, s)
    decreases |s|
  {
    if us :| Cut(us, s) {
      UnitsAreRead(e, us);
    }
    if DecodeBody(e, s).Some? {
      if s == [] {
        assert Cut([], s);
      } else {
        var n := if s[0] == 1 then 2 else 1;
        ReadExactly(e, s[n..]);
        var us :| Cut(us, s[n..]);
        assert Unit(s[..n]);
        assert ([s[..n]] + us)[1..] == us;
        assert Cut([s[..n]] + us, s);
      }
    }
  }
}
