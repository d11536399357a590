/** Bytes and the little-endian integers of the wire format. */
module Bytes {

  type byte = x: int | 0 <= x < 256

  /** The low 16 bits of v, least significant byte first. */
  function U16(v: int): (b: seq<byte>)
    ensures |b| == 2
  {
    [v % 256, v / 256 % 256]
  }

  /** The low 32 bits of v, least significant byte first; a negative v is sent in two's complement. */
  function U32(v: int): (b: seq<byte>)
    ensures |b| == 4
  {
    U16(v) + U16(v / 65536)
  }

  function ReadU16(b: seq<byte>, offset: nat): (v: nat)
    requires offset + 2 <= |b|
    ensures v < 65536
  {
    b[offset] as int + 256 * b[offset + 1] as int
  }

  function ReadU32(b: seq<byte>, offset: nat): (v: nat)
    requires offset + 4 <= |b|
    ensures v < 0x1_0000_0000
  {
    b[offset] as int + 256 * b[offset + 1] as int + 65536 * b[offset + 2] as int + 16777216 * b[offset + 3] as int
  }

  /** The same four bytes read into a signed 32-bit integer. */
  function ReadI32(b: seq<byte>, offset: nat): (v: int)
    requires offset + 4 <= |b|
    ensures -0x8000_0000 <= v < 0x8000_0000
  {
    var u := ReadU32(b, offset);
    if u < 0x8000_0000 then u else u - 0x1_0000_0000
  }

  lemma ReadU16OfU16(v: int, b: seq<byte>, offset: nat)
    requires offset + 2 <= |b|
    requires b[offset..offset + 2] == U16(v)
    ensures ReadU16(b, offset) == v % 65536
  {
    assert b[offset] == b[offset..offset + 2][0] && b[offset + 1] == b[offset..offset + 2][1];
  }

  lemma ReadU32OfU32(v: int, b: seq<byte>, offset: nat)
    requires offset + 4 <= |b|
    requires b[offset..offset + 4] == U32(v)
    ensures ReadU32(b, offset) == v % 0x1_0000_0000
  {
    var w := b[offset..offset + 4];
    assert b[offset..offset + 2] == w[..2] == U16(v);
    assert b[offset + 2..offset + 4] == w[2..] == U16(v / 65536);
    ReadU16OfU16(v, b, offset);
    ReadU16OfU16(v / 65536, b, offset + 2);
  }

  lemma ReadI32OfU32(v: int, b: seq<byte>, offset: nat)
    requires -0x8000_0000 <= v < 0x8000_0000
    requires offset + 4 <= |b|
    requires b[offset..offset + 4] == U32(v)
    ensures ReadI32(b, offset) == v
  {
    ReadU32OfU32(v, b, offset);
    assert v % 0x1_0000_0000 == if v < 0 then v + 0x1_0000_0000 else v;
  }

  /** Two bytes are determined by the integer they spell. */
  lemma U16OfReadU16(b: seq<byte>)
    requires |b| == 2
    ensures U16(ReadU16(b, 0)) == b
  {
  }

  lemma PlusTimes256(a: int, k: int)
    ensures (a + 256 * k) % 256 == a % 256
    ensures (a + 256 * k) / 256 == a / 256 + k
  {
  }

  lemma U16Low(lo: nat, hi: nat)
    requires lo < 65536
    ensures U16(lo + 65536 * hi) == U16(lo)
  {
    PlusTimes256(lo, 256 * hi);
    PlusTimes256(lo / 256, hi);
  }

  lemma U32OfReadU32(b: seq<byte>)
    requires |b| == 4
    ensures U32(ReadU32(b, 0)) == b
  {
    var lo, hi := ReadU16(b, 0), ReadU16(b, 2);
    assert ReadU32(b, 0) == lo + 65536 * hi;
    U16Low(lo, hi);
    assert ReadU16(b[..2], 0) == lo && ReadU16(b[2..], 0) == hi;
    U16OfReadU16(b[..2]);
    U16OfReadU16(b[2..]);
    assert b == b[..2] + b[2..];
  }

  /** Reading inside a slice is reading the whole, further on. */
  lemma ReadInSlice(b: seq<byte>, from: nat, to: nat, offset: nat)
    requires from <= to <= |b|
    ensures from + offset + 2 <= to ==> ReadU16(b[from..to], offset) == ReadU16(b, from + offset)
    ensures from + offset + 4 <= to ==> ReadU32(b[from..to], offset) == ReadU32(b, from + offset)
  {
  }
}
