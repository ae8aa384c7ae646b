/** Doubling a quote character, which is how both CSV and SQL text quote their own quotes. */
module Doubling {
  import opened Bytes

  /** Every `q` doubled. */
  function Doubled(q: byte, z: seq<byte>): seq<byte> {
    if z == [] then [] else (if z[0] == q then [q, q] else [z[0]]) + Doubled(q, z[1..])
  }

  lemma {:induction false} DoubledAppend(q: byte, a: seq<byte>, b: seq<byte>)
    ensures Doubled(q, a + b) == Doubled(q, a) + Doubled(q, b)
  {
    if a == [] {
      assert a + b == b;
    } else {
      assert (a + b)[1..] == a[1..] + b;
      DoubledAppend(q, a[1..], b);
    }
  }

  lemma DoubledSnoc(q: byte, z: seq<byte>, c: byte)
    ensures Doubled(q, z + [c]) == Doubled(q, z) + if c == q then [q, q] else [c]
  {
    DoubledAppend(q, z, [c]);
    assert [c][1..] == [];
  }
}
