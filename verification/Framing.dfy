/**
 The packet layer of the TCP stream: a packet is a 16-bit total size, a 16-bit id and a body,
 and a stream is read as the packets at its front, what is left over, and whether the left-over
 starts with a header no packet can have.
 */
module Framing {
  import opened Bytes

  const HEADER_SIZE := 4
  const MAX_PACKET_SIZE := 4096

  datatype Packet = Packet(id: nat, body: seq<byte>) {
    predicate Valid() {
      id < 65536 && HEADER_SIZE + |body| <= MAX_PACKET_SIZE
    }
  }

  datatype Parsed = Parsed(packets: seq<Packet>, rest: seq<byte>, bad: bool)

  predicate BadSize(n: nat) {
    n < HEADER_SIZE || n > MAX_PACKET_SIZE
  }

  /** No complete packet at the front: the reader waits for more bytes. */
  predicate Waiting(s: seq<byte>) {
    |s| < HEADER_SIZE || (!BadSize(ReadU16(s, 0)) && |s| < ReadU16(s, 0))
  }

  /** A header at the front that no packet can have. */
  predicate Malformed(s: seq<byte>) {
    |s| >= HEADER_SIZE && BadSize(ReadU16(s, 0))
  }

  function Head(s: seq<byte>): (p: Packet)
    requires !Waiting(s) && !Malformed(s)
    ensures p.Valid()
  {
    Packet(ReadU16(s, 2), s[HEADER_SIZE..ReadU16(s, 0)])
  }

  /** The whole stream at once. */
  function Parse(s: seq<byte>): (r: Parsed)
    ensures r.bad <==> Malformed(r.rest)
    ensures !r.bad <==> Waiting(r.rest)
    ensures forall p :: p in r.packets ==> p.Valid()
  {
    if Waiting(s) then Parsed([], s, false)
    else if Malformed(s) then Parsed([], s, true)
    else
      var tail := Parse(s[ReadU16(s, 0)..]);
      Parsed([Head(s)] + tail.packets, tail.rest, tail.bad)
  }

  /** The bytes of one packet, header first. */
  function Print(p: Packet): (b: seq<byte>)
    ensures |b| == HEADER_SIZE + |p.body|
  {
    U16(HEADER_SIZE + |p.body|) + U16(p.id) + p.body
  }

  function PrintAll(ps: seq<Packet>): seq<byte> {
    if ps == [] then [] else Print(ps[0]) + PrintAll(ps[1..])
  }

  predicate AllValid(ps: seq<Packet>) {
    forall i :: 0 <= i < |ps| ==> ps[i].Valid()
  }

  lemma PlusAssociates<T>(a: seq<T>, b: seq<T>, c: seq<T>)
    ensures (a + b) + c == a + (b + c)
  {
  }

  /** Reading after printing: the packet comes off the front whatever follows it. */
  lemma HeadOfPrint(p: Packet, more: seq<byte>)
    requires p.Valid()
    ensures !Waiting(Print(p) + more) && !Malformed(Print(p) + more)
    ensures ReadU16(Print(p) + more, 0) == HEADER_SIZE + |p.body|
    ensures Head(Print(p) + more) == p
    ensures (Print(p) + more)[HEADER_SIZE + |p.body|..] == more
  {
    var s := Print(p) + more;
    var n := HEADER_SIZE + |p.body|;
    assert s[0..2] == U16(n);
    ReadU16OfU16(n, s, 0);
    assert s[2..4] == U16(p.id);
    ReadU16OfU16(p.id, s, 2);
    assert s[HEADER_SIZE..n] == p.body;
    assert s[n..] == more;
  }

  /** Printing after reading: the bytes taken for a packet are exactly the packet printed. */
  lemma PrintOfHead(s: seq<byte>)
    requires !Waiting(s) && !Malformed(s)
    ensures s == Print(Head(s)) + s[ReadU16(s, 0)..]
  {
    var n := ReadU16(s, 0);
    var p := Head(s);
    assert ReadU16(s, 0) == ReadU16(s[0..2], 0) && ReadU16(s, 2) == ReadU16(s[2..4], 0);
    U16OfReadU16(s[0..2]);
    U16OfReadU16(s[2..4]);
    assert s == s[0..2] + s[2..4] + s[4..n] + s[n..];
    assert Print(p) == s[0..2] + s[2..4] + s[4..n];
  }

  /** One packet off the front, then the rest. */
  lemma ParseOfPrint(p: Packet, more: seq<byte>)
    requires p.Valid()
    ensures Parse(Print(p) + more) == Parsed([p] + Parse(more).packets, Parse(more).rest, Parse(more).bad)
  {
    HeadOfPrint(p, more);
  }

  /** Framing round trip: packets printed back to back parse to the same packets. */
  lemma {:induction false} ParseOfPrintAll(ps: seq<Packet>, more: seq<byte>)
    requires AllValid(ps)
    ensures Parse(PrintAll(ps) + more) ==
            Parsed(ps + Parse(more).packets, Parse(more).rest, Parse(more).bad)
  {
    if ps == [] {
      assert PrintAll(ps) + more == more;
      assert ps + Parse(more).packets == Parse(more).packets;
    } else {
      var tail := PrintAll(ps[1..]) + more;
      ParseOfPrintAll(ps[1..], more);
      ParseOfPrint(ps[0], tail);
      PlusAssociates(Print(ps[0]), PrintAll(ps[1..]), more);
      PlusAssociates([ps[0]], ps[1..], Parse(more).packets);
      assert [ps[0]] + ps[1..] == ps;
    }
  }

  /** What the parser took and what it left are, byte for byte, the stream it was given. */
  lemma {:induction false} PrintAllOfParse(s: seq<byte>)
    ensures s == PrintAll(Parse(s).packets) + Parse(s).rest
  {
    if !Waiting(s) && !Malformed(s) {
      var n := ReadU16(s, 0);
      PrintOfHead(s);
      PrintAllOfParse(s[n..]);
      var tail := Parse(s[n..]);
      assert Parse(s).packets[1..] == tail.packets;
      assert Print(Head(s)) + (PrintAll(tail.packets) + tail.rest) == PrintAll(Parse(s).packets) + tail.rest;
    }
  }

  /** Cutting the stream anywhere loses nothing: resume from the left-over. */
  lemma ParseAppend(a: seq<byte>, b: seq<byte>)
    ensures !Parse(a).bad ==>
              Parse(a + b) == Parsed(Parse(a).packets + Parse(Parse(a).rest + b).packets,
                                     Parse(Parse(a).rest + b).rest, Parse(Parse(a).rest + b).bad)
    ensures Parse(a).bad ==> Parse(a + b) == Parsed(Parse(a).packets, Parse(a).rest + b, true)
  {
    var p := Parse(a);
    PrintAllOfParse(a);
    assert a + b == PrintAll(p.packets) + (p.rest + b);
    ParseOfPrintAll(p.packets, p.rest + b);
    if p.bad {
      assert ReadU16(p.rest + b, 0) == ReadU16(p.rest, 0);
      assert p.packets + [] == p.packets;
    }
  }

  lemma ParseNothing(s: seq<byte>)
    requires Waiting(s) || Malformed(s)
    ensures Parse(s) == Parsed([], s, Malformed(s))
  {
  }

  lemma ParseTake(s: seq<byte>)
    requires !Waiting(s) && !Malformed(s)
    ensures var tail := Parse(s[ReadU16(s, 0)..]);
            Parse(s) == Parsed([Head(s)] + tail.packets, tail.rest, tail.bad)
  {
  }

  function Concat(chunks: seq<seq<byte>>): seq<byte> {
    if chunks == [] then [] else Concat(chunks[..|chunks| - 1]) + chunks[|chunks| - 1]
  }

  /** What a receiver does: keep the left-over, append each chunk, stop at a bad header. */
  function Feed(chunks: seq<seq<byte>>): Parsed {
    if chunks == [] then Parsed([], [], false)
    else
      var before := Feed(chunks[..|chunks| - 1]);
      if before.bad then before
      else
        var now := Parse(before.rest + chunks[|chunks| - 1]);
        Parsed(before.packets + now.packets, now.rest, now.bad)
  }

  /** Chunk independence: however the stream was cut, the same packets, the same stop. */
  lemma {:induction false} FeedIsParse(chunks: seq<seq<byte>>)
    ensures Feed(chunks).packets == Parse(Concat(chunks)).packets
    ensures Feed(chunks).bad == Parse(Concat(chunks)).bad
    ensures !Feed(chunks).bad ==> Feed(chunks).rest == Parse(Concat(chunks)).rest
  {
    if chunks != [] {
      var init := chunks[..|chunks| - 1];
      FeedIsParse(init);
      ParseAppend(Concat(init), chunks[|chunks| - 1]);
    }
  }

  /** A waiting receiver holds less than one packet of the largest size. */
  lemma WaitingIsShort(s: seq<byte>)
    requires Waiting(s)
    ensures |s| < MAX_PACKET_SIZE
  {
  }
}
