/** The object that holds a value either as bytes or as encoded text in one buffer. */
module BinaryObject {
  import opened Bytes
  import opened BinaryCodec

  /** Encoded text that SQL can carry and that decodes. */
  ghost predicate WellFormed(s: seq<byte>) {
    s != [] && QuoteFree(s) && Decode(s).Some?
  }

  /** The buffer that held well-formed text has room to encode the bytes again. */
  lemma TextHasRoom(s: seq<byte>)
    requires WellFormed(s)
    ensures Room(Decode(s).value, |s| + 1)
  {
    var x := Decode(s).value;
    EncodeDecodeBody(s[0], s[1..]);
    EncodeBodyShape(s[0], x);
    assert Allowed(s[0]);
  }

  class Binary {
    var buf: array?<byte>
    var binaryLen: int
    var bufferLen: int
    var encodedLen: int
    var encoded: bool

    /** The fields agree with the buffer; encoded text need not be well formed yet. */
    ghost predicate Loaded()
      reads this, buf
    {
      && buf != null && buf.Length == bufferLen
      && (encoded ==> 0 <= encodedLen < bufferLen && CString(buf, buf[..encodedLen]))
      && (!encoded ==> 0 <= binaryLen <= bufferLen)
    }

    /** Loaded, and able to go back and forth between the two representations. */
    ghost predicate Valid()
      reads this, buf
    {
      && Loaded()
      && (encoded ==> WellFormed(buf[..encodedLen]) && Room(Decode(buf[..encodedLen]).value, bufferLen))
      && (!encoded ==> Room(buf[..binaryLen], bufferLen))
    }

    /** The bytes the object stands for. */
    ghost function Contents(): seq<byte>
      reads this, buf
      requires Valid()
    {
      if encoded then Decode(buf[..encodedLen]).value else buf[..binaryLen]
    }

    constructor ()
      ensures buf == null
    {
      buf, binaryLen, bufferLen, encodedLen, encoded := null, 0, 0, 0, false;
    }

    method Clear()
      modifies this
      ensures buf == null && encoded == old(encoded)
    {
      if buf != null {
        binaryLen, bufferLen, buf := 0, 0, null;
      }
    }

    method AllocBuffer(n: nat)
      modifies this
      ensures buf != null && fresh(buf)
      ensures !encoded && binaryLen == n && bufferLen == buf.Length == 3 + (257 * n) / 254
    {
      Clear();
      binaryLen := n;
      bufferLen := 3 + (257 * n) / 254;
      buf := new byte[bufferLen];
      encoded := false;
    }

    method SetBinary(data: seq<byte>)
      modifies this
      ensures Valid() && fresh(buf)
      ensures Contents() == data
    {
      AllocBuffer(|data|);
      forall i | 0 <= i < |data| {
        buf[i] := data[i];
      }
      assert buf[..binaryLen] == data;
      DocumentedSizeHasRoom(data);
    }

    method SetEncoded(text: seq<byte>)
      requires NulFree(text)
      modifies this
      ensures Loaded() && fresh(buf) && encoded && buf[..encodedLen] == text
      ensures WellFormed(text) ==> Valid() && Contents() == Decode(text).value
    {
      Clear();
      encodedLen := |text|;
      bufferLen := encodedLen + 1;
      buf := new byte[bufferLen];
      forall i | 0 <= i < |text| {
        buf[i] := text[i];
      }
      buf[|text|] := NUL;
      encoded := true;
      assert buf[..encodedLen] == text;
      if WellFormed(text) {
        TextHasRoom(text);
      }
    }

    /** The encoded text; the buffer is not replaced and never outgrown. */
    method GetEncoded()
      requires Valid()
      modifies this, buf
      ensures Valid() && encoded
      ensures buf == old(buf) && bufferLen == old(bufferLen)
      ensures Contents() == old(Contents())
      ensures if old(encoded) then encodedLen == old(encodedLen) && buf[..] == old(buf[..])
              else IsEncoding(buf[..encodedLen], Contents())
    {
      if !encoded {
        ghost var x := buf[..binaryLen];
        var tmp := new byte[binaryLen];
        forall i | 0 <= i < binaryLen {
          tmp[i] := buf[i];
        }
        assert tmp[..binaryLen] == x;
        encodedLen := Encode(tmp, binaryLen, buf);
        encoded := true;
        EncodingMeetsItsPromise(buf[..encodedLen], x);
      }
    }

    /** The bytes, decoded in place; false where the source raises its exception. */
    method GetBinary() returns (ok: bool)
      requires Loaded() && (encoded ==> encodedLen > 0)
      modifies this, buf
      ensures buf == old(buf) && bufferLen == old(bufferLen)
      ensures ok == old(!encoded || Decode(buf[..encodedLen]).Some?)
      ensures ok ==> Loaded() && !encoded
      ensures ok ==> buf[..binaryLen] == old(if encoded then Decode(buf[..encodedLen]).value else buf[..binaryLen])
      ensures !ok ==> binaryLen == -1 && encoded
      ensures old(Valid()) ==> ok && Valid() && Contents() == old(Contents())
    {
      if encoded {
        ghost var s := buf[..encodedLen];
        binaryLen := DecodeArray(buf, buf, s);
        if binaryLen == -1 {
          return false;
        }
        encoded := false;
      }
      ok := true;
    }

    method GetBinaryLength() returns (n: int)
      requires Valid()
      modifies this, buf
      ensures Valid() && buf == old(buf) && bufferLen == old(bufferLen)
      ensures Contents() == old(Contents()) && n == |Contents()|
    {
      var _ := GetBinary();
      n := binaryLen;
    }
  }

  datatype Getter = Encoded | Bytes | Length

  /** Any sequence of getters leaves the value alone and stays in the buffer. */
  method RunGetters(b: Binary, getters: seq<Getter>)
    requires b.Valid()
    modifies b, b.buf
    ensures b.Valid() && b.buf == old(b.buf) && b.bufferLen == old(b.bufferLen)
    ensures b.Contents() == old(b.Contents())
  {
    for i := 0 to |getters|
      invariant b.Valid() && b.buf == old(b.buf) && b.bufferLen == old(b.bufferLen)
      invariant b.Contents() == old(b.Contents())
    {
      match getters[i]
      case Encoded => b.GetEncoded();
      case Bytes => var _ := b.GetBinary();
      case Length => var _ := b.GetBinaryLength();
    }
  }
}
