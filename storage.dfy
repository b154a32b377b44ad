/** A file of the flash file system: a byte sequence with a read position,
    and the little-endian field readers read16/read32 of PlaneSpotter.cpp. */
module Storage {

  type byte = x: int | 0 <= x < 0x100

  /** The byte the single-byte `read()` yields at offset `p`, as it lands in a
      `uint8_t`: past the end `read()` returns -1, which becomes 0xFF. */
  function ByteAt(data: seq<byte>, p: nat): byte
  {
    if p < |data| then data[p] else 0xFF
  }

  /** Little-endian assembly of two bytes (LSB first). */
  function LE16(b0: byte, b1: byte): (v: int)
    ensures 0 <= v < 0x1_0000
    ensures v % 0x100 == b0 && v / 0x100 == b1
  {
    b0 + 0x100 * b1
  }

  /** Little-endian assembly of four bytes (LSB first). */
  function LE32(b0: byte, b1: byte, b2: byte, b3: byte): (v: int)
    ensures 0 <= v < 0x1_0000_0000
  {
    LE16(b0, b1) + 0x1_0000 * LE16(b2, b3)
  }

  /** The little-endian encoding of a 16-bit value: the inverse of LE16. */
  function Bytes16(v: int): (bs: seq<byte>)
    requires 0 <= v < 0x1_0000
    ensures |bs| == 2
  {
    [v % 0x100, v / 0x100]
  }

  /** The little-endian encoding of a 32-bit value: the inverse of LE32. */
  function Bytes32(v: int): (bs: seq<byte>)
    requires 0 <= v < 0x1_0000_0000
    ensures |bs| == 4
  {
    Bytes16(v % 0x1_0000) + Bytes16(v / 0x1_0000)
  }

  lemma LE16RoundTrip(v: int)
    requires 0 <= v < 0x1_0000
    ensures LE16(Bytes16(v)[0], Bytes16(v)[1]) == v
  {
  }

  /** Encoding the value read32 assembles gives back the four bytes read. */
  lemma LE32Bytes(b0: byte, b1: byte, b2: byte, b3: byte)
    ensures Bytes32(LE32(b0, b1, b2, b3)) == [b0, b1, b2, b3]
  {
  }

  lemma LE32RoundTrip(v: int)
    requires 0 <= v < 0x1_0000_0000
    ensures LE32(Bytes32(v)[0], Bytes32(v)[1], Bytes32(v)[2], Bytes32(v)[3]) == v
  {
    LE16RoundTrip(v % 0x1_0000);
    LE16RoundTrip(v / 0x1_0000);
  }

  /** The 16-bit field at logical offset `p` of a file read from the start. */
  function U16At(data: seq<byte>, p: nat): int
  {
    LE16(ByteAt(data, p), ByteAt(data, p + 1))
  }

  /** The 32-bit field at logical offset `p` of a file read from the start. */
  function U32At(data: seq<byte>, p: nat): int
  {
    LE32(ByteAt(data, p), ByteAt(data, p + 1), ByteAt(data, p + 2), ByteAt(data, p + 3))
  }

  class File {
    const data: seq<byte>
    var position: nat

    ghost predicate Valid()
      reads this
    {
      position <= |data|
    }

    constructor Open(data: seq<byte>)
      ensures Valid() && this.data == data && position == 0
    {
      this.data := data;
      position := 0;
    }

    /** read(): the next byte, or -1 at the end of the file (no advance). */
    method Read() returns (c: int)
      requires Valid()
      modifies this
      ensures Valid()
      ensures old(position) < |data| ==> c == data[old(position)] && position == old(position) + 1
      ensures old(position) == |data| ==> c == -1 && position == old(position)
    {
      if position < |data| {
        c := data[position];
        position := position + 1;
      } else {
        c := -1;
      }
    }

    /** read(buf, n): copies as many of the next |buf| bytes as the file still
        holds into the front of `buf`; the rest of `buf` keeps its old bytes. */
    method ReadInto(buf: array<byte>)
      requires Valid()
      modifies this, buf
      ensures Valid()
      ensures position == old(position) + Min(buf.Length, |data| - old(position))
      ensures buf[..] == Overlay(data, old(position), old(buf[..]))
    {
      var k := Min(buf.Length, |data| - position);
      var i := 0;
      while i < k
        invariant 0 <= i <= k && position == old(position)
        invariant forall j :: 0 <= j < i ==> buf[j] == data[position + j]
        invariant forall j :: i <= j < buf.Length ==> buf[j] == old(buf[j])
      {
        buf[i] := data[position + i];
        i := i + 1;
      }
      assert buf[..] == data[position..position + k] + old(buf[..])[k..];
      position := position + k;
    }

    /** seek(p, SeekSet): the file system clamps a position past the end to the end. */
    method Seek(p: int)
      requires 0 <= p
      modifies this
      ensures Valid() && position == Min(p, |data|)
    {
      position := Min(p, |data|);
    }
  }

  function Min(a: int, b: int): (m: int)
    ensures m <= a && m <= b && (m == a || m == b)
  {
    if a <= b then a else b
  }

  /** The buffer `buf` after a bulk read at position p: byte i comes from the
      file where the file still has one, and keeps its old value past the end. */
  function Overlay(data: seq<byte>, p: nat, buf: seq<byte>): (r: seq<byte>)
    requires p <= |data|
    ensures |r| == |buf|
    ensures forall i :: 0 <= i < |buf| ==> r[i] == if p + i < |data| then data[p + i] else buf[i]
  {
    var k := Min(|buf|, |data| - p);
    data[p..p + k] + buf[k..]
  }

  /** A position reached by single-byte reads from offset 0 is the logical
      offset clamped to the end of the file. */
  ghost predicate AtLogical(f: File, p: nat)
    reads f
  {
    f.position == Min(p, |f.data|)
  }

  /** The byte that read() stores into a `uint8_t`. */
  function AsByte(c: int): byte
    requires -1 <= c < 0x100
  {
    if c < 0 then 0xFF else c
  }

  method ReadByte(f: File, ghost p: nat) returns (b: byte)
    requires f.Valid() && AtLogical(f, p)
    modifies f
    ensures f.Valid() && AtLogical(f, p + 1) && b == ByteAt(f.data, p)
  {
    var c := f.Read();
    b := AsByte(c);
  }

  /** read16: two single-byte reads, least significant first. */
  method Read16(f: File, ghost p: nat) returns (v: int)
    requires f.Valid() && AtLogical(f, p)
    modifies f
    ensures f.Valid() && AtLogical(f, p + 2) && v == U16At(f.data, p)
  {
    var lo := ReadByte(f, p);
    var hi := ReadByte(f, p + 1);
    v := LE16(lo, hi);
  }

  /** read32: four single-byte reads, least significant first. */
  method Read32(f: File, ghost p: nat) returns (v: int)
    requires f.Valid() && AtLogical(f, p)
    modifies f
    ensures f.Valid() && AtLogical(f, p + 4) && v == U32At(f.data, p)
  {
    var b0 := ReadByte(f, p);
    var b1 := ReadByte(f, p + 1);
    var b2 := ReadByte(f, p + 2);
    var b3 := ReadByte(f, p + 3);
    v := LE32(b0, b1, b2, b3);
  }
}
