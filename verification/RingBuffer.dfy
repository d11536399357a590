/** The receive ring of a session: a fixed array used as a byte queue. */
module RingBuffer {
  import opened Bytes

  const RING_SIZE := 8192
  const SIZE_T := 0x1_0000_0000_0000_0000   // one more than a size_t holds

  /** A 32-bit int converted to unsigned int, as the size checks do. */
  function Unsigned(size: int): (u: int)
    requires -0x8000_0000 <= size < 0x8000_0000
    ensures 0 <= u < 0x1_0000_0000
    ensures u <= RING_SIZE ==> 0 <= size
  {
    if size < 0 then size + 0x1_0000_0000 else size
  }

  /** Where the i-th place after x lands: positions run round the array. */
  function Wrap(x: int): (p: int)
    requires 0 <= x < 2 * RING_SIZE
    ensures p == x % RING_SIZE
    ensures 0 <= p < RING_SIZE
  {
    if x < RING_SIZE then x else x - RING_SIZE
  }

  /** How far p lies after start, going round. */
  function Ahead(start: int, p: int): (d: int)
    requires 0 <= start < RING_SIZE && 0 <= p < RING_SIZE
    ensures 0 <= d < RING_SIZE && Wrap(start + d) == p
  {
    if p >= start then p - start else p - start + RING_SIZE
  }

  /** Where the i-th stored byte lies, seen from the place the next one goes to. */
  lemma AheadAt(readPos: int, stored: int, i: int)
    requires 0 <= readPos < RING_SIZE && 0 <= stored <= RING_SIZE && 0 <= i < RING_SIZE
    ensures Ahead(Wrap(readPos + stored), Wrap(readPos + i)) == if i < stored then RING_SIZE - stored + i else i - stored
  {
  }

  /** Copies n bytes, one after the other. */
  method MemCpy(dst: array<byte>, to: nat, src: array<byte>, from: nat, n: nat)
    requires dst != src
    requires to + n <= dst.Length && from + n <= src.Length
    modifies dst
    ensures forall i :: 0 <= i < dst.Length ==>
              dst[i] == if to <= i < to + n then src[from + (i - to)] else old(dst[i])
  {
    var k := 0;
    while k < n
      invariant 0 <= k <= n
      invariant forall i :: 0 <= i < dst.Length ==>
                  dst[i] == if to <= i < to + k then src[from + (i - to)] else old(dst[i])
    {
      dst[to + k] := src[from + k];
      k := k + 1;
    }
  }

  class RingBuffer {
    const buffer: array<byte>
    var readPos: int
    var writePos: int
    var storedBytes: int

    ghost predicate Valid()
      reads this
    {
      && buffer.Length == RING_SIZE
      && 0 <= storedBytes <= RING_SIZE
      && 0 <= readPos < RING_SIZE
      && writePos == Wrap(readPos + storedBytes)
    }

    /** The stored bytes in the order they were written: the queue this ring stands for. */
    ghost function Contents(): (s: seq<byte>)
      requires Valid()
      reads this, buffer
      ensures |s| == storedBytes
      ensures forall i :: 0 <= i < storedBytes ==> s[i] == buffer[Wrap(readPos + i)]
    {
      seq(storedBytes, i requires 0 <= i < storedBytes reads this, buffer requires Valid() =>
        buffer[Wrap(readPos + i)])
    }

    constructor ()
      ensures Valid() && fresh(buffer)
      ensures Contents() == []
    {
      buffer := new byte[RING_SIZE](_ => 0);
      readPos, writePos, storedBytes := 0, 0, 0;
    }

    method Write(src: array<byte>, size: int) returns (ok: bool)
      requires Valid() && src != buffer
      requires -0x8000_0000 <= size <= src.Length && size < 0x8000_0000
      modifies this`writePos, this`storedBytes, buffer
      ensures Valid()
      ensures ok <==> 0 <= size <= RING_SIZE - old(storedBytes)
      ensures Contents() == if ok then old(Contents()) + src[..size] else old(Contents())
    {
      if Unsigned(size) > RING_SIZE - storedBytes {
        return false;
      }
      ghost var was := Contents();
      ghost var start := writePos;
      CopyIn(src, size);
      writePos := (writePos + size) % RING_SIZE;
      assert writePos == Wrap(start + size);
      storedBytes := storedBytes + size;
      ok := true;
      forall i | 0 <= i < storedBytes
        ensures Contents()[i] == (was + src[..size])[i]
      {
        var p := Wrap(readPos + i);
        AheadAt(readPos, |was|, i);
        assert buffer[p] == if Ahead(start, p) < size then src[Ahead(start, p)] else old(buffer[p]);
      }
    }

    /** The two copies of a write: size bytes from writePos on, going round the end of the array. */
    method CopyIn(src: array<byte>, size: nat)
      requires src != buffer && buffer.Length == RING_SIZE
      requires 0 <= writePos < RING_SIZE && size <= RING_SIZE && size <= src.Length
      modifies buffer
      ensures forall p :: 0 <= p < RING_SIZE ==>
                buffer[p] == if Ahead(writePos, p) < size then src[Ahead(writePos, p)] else old(buffer[p])
    {
      var firstCopy := if size < RING_SIZE - writePos then size else RING_SIZE - writePos;
      MemCpy(buffer, writePos, src, 0, firstCopy);
      var remain := size - firstCopy;
      if remain > 0 {
        MemCpy(buffer, 0, src, firstCopy, remain);
      }
    }

    method Peek(dst: array<byte>, size: int) returns (ok: bool)
      requires Valid() && dst != buffer
      requires -0x8000_0000 <= size <= dst.Length && size < 0x8000_0000
      modifies dst
      ensures ok <==> 0 <= size <= storedBytes
      ensures ok ==> dst[..size] == Contents()[..size] && dst[size..] == old(dst[size..])
      ensures !ok ==> dst[..] == old(dst[..])
      ensures Valid() && Contents() == old(Contents())
    {
      if storedBytes < Unsigned(size) {
        return false;
      }
      var firstCopy := if size < RING_SIZE - readPos then size else RING_SIZE - readPos;
      MemCpy(dst, 0, buffer, readPos, firstCopy);
      var remain := size - firstCopy;
      if remain > 0 {
        MemCpy(dst, firstCopy, buffer, 0, remain);
      }
      ok := true;
      assert Contents() == old(Contents());
    }

    method Read(dst: array<byte>, size: int) returns (ok: bool)
      requires Valid() && dst != buffer
      requires -0x8000_0000 <= size <= dst.Length && size < 0x8000_0000
      modifies this`readPos, this`storedBytes, dst
      ensures Valid()
      ensures ok <==> 0 <= size <= old(storedBytes)
      ensures ok ==> old(Contents()) == dst[..size] + Contents()
      ensures !ok ==> Contents() == old(Contents()) && dst[..] == old(dst[..])
    {
      ghost var was := Contents();
      ok := Peek(dst, size);
      if !ok {
        return;
      }
      ghost var start := readPos;
      readPos := (readPos + size) % RING_SIZE;
      assert readPos == Wrap(start + size);
      storedBytes := storedBytes - size;
      assert Contents() == was[size..];
    }

    function Has(size: nat): (r: bool)
      requires Valid()
      reads this, buffer
      ensures r <==> size <= |Contents()|
    {
      storedBytes >= size
    }

    /** Skips without a check: storedBytes is a size_t, so skipping more than is stored wraps it round. */
    method Skip(size: nat)
      requires Valid() && size < SIZE_T
      modifies this`readPos, this`storedBytes
      ensures size <= old(storedBytes) ==> Valid() && Contents() == old(Contents())[size..]
      ensures size > old(storedBytes) ==> readPos == old(readPos + size) % RING_SIZE && storedBytes == old(storedBytes) - size + SIZE_T
    {
      ghost var was := Contents();
      ghost var start := readPos;
      readPos := (readPos + size) % RING_SIZE;
      storedBytes := (storedBytes - size) % SIZE_T;
      if size <= |was| {
        assert readPos == Wrap(start + size) && storedBytes == |was| - size;
        assert Contents() == was[size..];
      }
    }
  }
}
