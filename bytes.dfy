/**
 * Octets and the fixed-width integer layouts the hub protocol uses:
 * unsigned little-endian values (Buffer's writeUInt16LE / writeUInt32LE and
 * their readers) and two's-complement signed values (writeInt8, readInt8,
 * readInt32LE). Integers are unbounded here, so every width is explicit.
 */
module Bytes {

  /** One octet of a frame or command. */
  type Byte = b: int | 0 <= b < 256

  /** 256^n: the number of distinct values an n-byte field can hold. */
  function Pow256(n: nat): (r: int)
    ensures r >= 1
  {
    if n == 0 then 1 else 256 * Pow256(n - 1)
  }

  lemma Pow256Step(n: nat)
    requires n > 0
    ensures Pow256(n) == 256 * Pow256(n - 1)
  {
  }

  lemma Pow256Values()
    ensures Pow256(1) == 0x100 && Pow256(2) == 0x1_0000
    ensures Pow256(4) == 0x1_0000_0000
  {
    assert Pow256(3) == 0x100_0000;
  }

  /** The n-byte little-endian encoding of v (least significant byte first). */
  function ToLE(v: nat, n: nat): (r: seq<Byte>)
    requires v < Pow256(n)
    ensures |r| == n
    decreases n
  {
    if n == 0 then []
    else
      Pow256Step(n);
      assert v / 256 < Pow256(n - 1);
      [v % 256] + ToLE(v / 256, n - 1)
  }

  /** The unsigned value of a little-endian byte sequence; it always fits its width. */
  function FromLE(s: seq<Byte>): (r: nat)
    ensures r < Pow256(|s|)
  {
    if s == [] then 0
    else
      var rest := FromLE(s[1..]);
      Pow256Step(|s|);
      assert s[0] + 256 * rest <= 255 + 256 * (Pow256(|s| - 1) - 1);
      s[0] as int + 256 * rest
  }

  /** Decoding an encoded value gives the value back. */
  lemma {:induction false} FromToLE(v: nat, n: nat)
    requires v < Pow256(n)
    ensures FromLE(ToLE(v, n)) == v
    decreases n
  {
    if n > 0 {
      Pow256Step(n);
      var s := ToLE(v, n);
      assert s[1..] == ToLE(v / 256, n - 1);
      FromToLE(v / 256, n - 1);
    }
  }

  /** Encoding a decoded sequence gives the same bytes back. */
  lemma {:induction false} ToFromLE(s: seq<Byte>)
    ensures ToLE(FromLE(s), |s|) == s
  {
    if s != [] {
      var v := FromLE(s);
      assert v % 256 == s[0] && v / 256 == FromLE(s[1..]);
      ToFromLE(s[1..]);
    }
  }

  /** Reinterprets an n-byte unsigned value as two's-complement signed. */
  function ToSigned(u: nat, n: nat): (r: int)
    requires 0 < n && u < Pow256(n)
    ensures -Pow256(n) <= 2 * r < Pow256(n)
  {
    if 2 * u < Pow256(n) then u else u - Pow256(n)
  }

  /** The n-byte two's-complement pattern of a signed value. */
  function FromSigned(v: int, n: nat): (r: nat)
    requires 0 < n && -Pow256(n) <= 2 * v < Pow256(n)
    ensures r < Pow256(n)
  {
    if v < 0 then v + Pow256(n) else v
  }

  /** Two's-complement reading undoes two's-complement writing, both ways. */
  lemma SignedRoundTrip(v: int, u: nat, n: nat)
    requires 0 < n && -Pow256(n) <= 2 * v < Pow256(n) && u < Pow256(n)
    ensures ToSigned(FromSigned(v, n), n) == v
    ensures FromSigned(ToSigned(u, n), n) == u
  {
  }

  /** writeInt8: the byte holding a signed 8-bit value. */
  function Int8Byte(v: int): (b: Byte)
    requires -128 <= v < 128
    ensures ToSigned(b, 1) == v
  {
    SignedRoundTrip(v, 0, 1);
    FromSigned(v, 1)
  }

  /** readInt8 at offset off. */
  function ReadInt8(s: seq<Byte>, off: nat): (r: int)
    requires off < |s|
    ensures -128 <= r < 128
    ensures r >= 0 <==> s[off] < 128
    ensures Int8Byte(r) == s[off]
  {
    SignedRoundTrip(0, s[off], 1);
    ToSigned(s[off], 1)
  }

  /** readUInt16LE at offset off. */
  function ReadUInt16LE(s: seq<Byte>, off: nat): (r: nat)
    requires off + 2 <= |s|
    ensures r < 0x1_0000
    ensures r == s[off] as int + 256 * s[off + 1] as int
  {
    var w := s[off..off + 2];
    assert w[1..][1..] == [];
    assert FromLE(w[1..]) == w[1] as int + 256 * FromLE(w[1..][1..]);
    Pow256Values();
    FromLE(w)
  }

  /** readUInt32LE at offset off. */
  function ReadUInt32LE(s: seq<Byte>, off: nat): (r: nat)
    requires off + 4 <= |s|
    ensures r < 0x1_0000_0000
  {
    Pow256Values();
    FromLE(s[off..off + 4])
  }

  /** readInt32LE at offset off. */
  function ReadInt32LE(s: seq<Byte>, off: nat): (r: int)
    requires off + 4 <= |s|
    ensures -0x8000_0000 <= r < 0x8000_0000
    ensures r < 0 <==> s[off + 3] >= 128
  {
    var u := ReadUInt32LE(s, off);
    assert u == FromLE(s[off..off + 4]);
    Top32(s[off..off + 4]);
    ToSigned(u, 4)
  }

  /** A 4-byte little-endian value is at least 2^31 exactly when its last byte has the top bit set. */
  lemma Top32(w: seq<Byte>)
    requires |w| == 4
    ensures FromLE(w) >= 0x8000_0000 <==> w[3] >= 128
  {
    var w1, w2, w3 := w[1..], w[1..][1..], w[1..][1..][1..];
    assert w3[1..] == [];
    assert FromLE(w3) == w[3] as int + 256 * FromLE(w3[1..]);
    assert FromLE(w2) == w[2] as int + 256 * FromLE(w3);
    assert FromLE(w1) == w[1] as int + 256 * FromLE(w2);
  }

  /** writeUInt16LE then readUInt16LE at the same offset gives the value back. */
  lemma UInt16RoundTrip(v: nat)
    requires v < 0x1_0000
    ensures ReadUInt16LE(ToLE(v, 2), 0) == v
  {
    var s := ToLE(v, 2);
    assert s[0..2] == s;
    FromToLE(v, 2);
  }

  /** writeUInt32LE then readUInt32LE at the same offset gives the value back. */
  lemma UInt32RoundTrip(v: nat)
    requires v < 0x1_0000_0000
    ensures ReadUInt32LE(ToLE(v, 4), 0) == v
  {
    var s := ToLE(v, 4);
    assert s[0..4] == s;
    FromToLE(v, 4);
  }
}
