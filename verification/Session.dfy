/**
 A session run by one thread at a time: the receive path from a completed receive to the job queue,
 and the send and close paths it uses. How the same steps interleave between threads is the subject
 of module Server.
 */
module Session {
  import opened Bytes
  import opened F = Framing
  import opened Protocol
  import R = RingBuffer
  import Q = GameJobQueue

  const BUFFER_SIZE := 4096

  datatype Verdict = Took | Waits | Malformed

  datatype SessionState = Connected | Closing | Closed

  /** The jobs that handing these packets to ProcessPacket one by one pushes: every known packet is
      delivered, the first unknown one closes the session, and neither stops the batch. */
  function Handoff(s: Sid, live: bool, ps: seq<Packet>): seq<Job> {
    if ps == [] then []
    else
      var init := ps[..|ps| - 1];
      var p := ps[|ps| - 1];
      Handoff(s, live, init) + HandoffOne(s, live && AllKnown(init), p)
  }

  /** Without an unknown packet the batch is delivered whole and in order. */
  lemma {:induction false} HandoffOfKnown(s: Sid, live: bool, ps: seq<Packet>)
    requires AllKnown(ps)
    ensures Handoff(s, live, ps) == Deliveries(s, ps)
  {
    if ps != [] {
      HandoffOfKnown(s, live, ps[..|ps| - 1]);
    }
  }

  function Delivered(jobs: seq<Job>): seq<Packet> {
    if jobs == [] then []
    else
      Delivered(jobs[..|jobs| - 1]) +
      var j := jobs[|jobs| - 1]; if j.Deliver? then [j.packet] else []
  }

  function KnownOnly(ps: seq<Packet>): seq<Packet> {
    if ps == [] then []
    else KnownOnly(ps[..|ps| - 1]) + if Known(ps[|ps| - 1].id) then [ps[|ps| - 1]] else []
  }

  lemma AllKnownSnoc(ps: seq<Packet>, p: Packet)
    ensures AllKnown(ps + [p]) <==> AllKnown(ps) && Known(p.id)
  {
    var all := ps + [p];
    assert all[|ps|] == p;
    assert forall i :: 0 <= i < |ps| ==> all[i] == ps[i];
  }

  lemma HandoffSnoc(s: Sid, live: bool, ps: seq<Packet>, p: Packet)
    ensures Handoff(s, live, ps + [p]) == Handoff(s, live, ps) +
            HandoffOne(s, live && AllKnown(ps), p)
  {
    assert (ps + [p])[..|ps + [p]| - 1] == ps;
  }

  lemma DeliveredSnoc(jobs: seq<Job>, j: Job)
    ensures Delivered(jobs + [j]) == Delivered(jobs) + if j.Deliver? then [j.packet] else []
  {
    assert (jobs + [j])[..|jobs + [j]| - 1] == jobs;
  }

  /** A kicked batch still delivers all its known packets, and disconnects exactly once. */
  lemma {:induction false} HandoffDeliversKnown(s: Sid, live: bool, ps: seq<Packet>)
    ensures Delivered(Handoff(s, live, ps)) == KnownOnly(ps)
    ensures multiset(Handoff(s, live, ps))[Disconnect(s)] == if live && !AllKnown(ps) then 1 else 0
  {
    if ps == [] {
    } else {
      var init, p := ps[..|ps| - 1], ps[|ps| - 1];
      HandoffDeliversKnown(s, live, init);
      assert ps == init + [p];
      AllKnownSnoc(init, p);
      HandoffSnoc(s, live, init, p);
      if Known(p.id) {
        DeliveredSnoc(Handoff(s, live, init), Deliver(s, p));
      } else if live && AllKnown(init) {
        DeliveredSnoc(Handoff(s, live, init), Disconnect(s));
      } else {
        assert Handoff(s, live, ps) == Handoff(s, live, init);
      }
    }
  }

  function Onward(done: seq<Packet>, p: Parsed): Parsed {
    Parsed(done + p.packets, p.rest, p.bad)
  }

  /** Where the framing loop stands: packets `done` taken off `stream`, `ring` left, the session still
      open or not, and the job queue grown from q0 to `queue`. */
  ghost predicate Framed(s: Sid, q0: seq<Job>, stream: seq<byte>, done: seq<Packet>, ring: seq<byte>, live: bool, queue: seq<Job>) {
    && Parse(stream) == Onward(done, Parse(ring))
    && live == AllKnown(done)
    && queue == q0 + Handoff(s, true, done)
  }

  /** What handing one packet over pushes. */
  function HandoffOne(s: Sid, live: bool, p: Packet): seq<Job> {
    if Known(p.id) then [Deliver(s, p)] else if live then [Disconnect(s)] else []
  }

  /** What a batch sends on an open session: one kick, if a packet is unknown and the kernel starts it. */
  function Kicks(ps: seq<Packet>, starts: bool): seq<seq<byte>> {
    if !AllKnown(ps) && starts then [Print(KICK)] else []
  }

  lemma FramedTake(s: Sid, q0: seq<Job>, stream: seq<byte>, done: seq<Packet>, ring: seq<byte>, live: bool, queue: seq<Job>)
    requires Framed(s, q0, stream, done, ring, live, queue)
    requires !Waiting(ring) && !F.Malformed(ring)
    ensures Framed(s, q0, stream, done + [Head(ring)], ring[ReadU16(ring, 0)..], live && Known(Head(ring).id),
                   queue + HandoffOne(s, live, Head(ring)))
  {
    var p := Head(ring);
    var tail := Parse(ring[ReadU16(ring, 0)..]);
    ParseTake(ring);
    AllKnownSnoc(done, p);
    HandoffSnoc(s, true, done, p);
    PlusAssociates(done, [p], tail.packets);
    PlusAssociates(q0, Handoff(s, true, done), HandoffOne(s, live, p));
  }

  lemma FramedEnd(s: Sid, q0: seq<Job>, stream: seq<byte>, done: seq<Packet>, ring: seq<byte>, live: bool, queue: seq<Job>)
    requires Framed(s, q0, stream, done, ring, live, queue)
    requires Waiting(ring) || F.Malformed(ring)
    ensures Parse(stream) == Parsed(done, ring, F.Malformed(ring))
  {
    ParseNothing(ring);
    assert done + [] == done;
  }

  lemma ReadInPrefix(s: seq<byte>, header: seq<byte>)
    requires |header| == HEADER_SIZE <= |s| && header == s[..HEADER_SIZE]
    ensures ReadU16(header, 0) == ReadU16(s, 0) && ReadU16(header, 2) == ReadU16(s, 2)
  {
  }

  class Session {
    const id: Sid
    const recvRing: R.RingBuffer
    const recvBuffer: array<byte>
    const jobs: Q.GameJobQueue
    var state: SessionState
    var closeIssued: bool
    var recvPosted: bool
    var pendingIO: int
    var outbox: seq<seq<byte>>   // the buffers whose WSASend started

    ghost predicate Sound()
      reads this, recvRing, recvRing.buffer, recvBuffer, jobs
    {
      && recvBuffer != recvRing.buffer
      && recvBuffer.Length == BUFFER_SIZE
      && recvRing.Valid()
      && jobs.Valid()
      && state != Closing                      // between calls a close has run to its end
      && (closeIssued <==> state == Closed)
    }

    /** Another thread has taken the session from Connected and has yet to close it. */
    ghost predicate BeingClosed()
      reads this, recvRing, recvRing.buffer, recvBuffer, jobs
    {
      recvBuffer != recvRing.buffer && recvBuffer.Length == BUFFER_SIZE && recvRing.Valid() && jobs.Valid() && state == Closing
    }

    /** Between two receives an open session holds no complete packet. */
    ghost predicate Valid()
      reads this, recvRing, recvRing.buffer, recvBuffer, jobs
    {
      Sound() && (state == Connected ==> Waiting(recvRing.Contents()))
    }

    constructor (id: Sid, jobs: Q.GameJobQueue)
      requires jobs.Valid()
      ensures Valid() && this.id == id && this.jobs == jobs
      ensures fresh(recvRing) && fresh(recvRing.buffer) && fresh(recvBuffer)
      ensures state == Connected && !recvPosted && pendingIO == 0 && outbox == []
      ensures recvRing.Contents() == []
    {
      this.id, this.jobs := id, jobs;
      recvRing := new R.RingBuffer();
      recvBuffer := new byte[BUFFER_SIZE](_ => 0);
      state, closeIssued, recvPosted, pendingIO, outbox := Connected, false, false, 0, [];
    }

    method Close()
      modifies this`closeIssued, this`state
      ensures closeIssued
      ensures state == if old(closeIssued) then old(state) else Closed
    {
      if closeIssued {
        return;
      }
      closeIssued := true;
      state := Closed;
    }

    method RequestClose()
      requires Sound()
      modifies this`closeIssued, this`state, jobs
      ensures Sound() && state == Closed
      ensures jobs.queue == old(jobs.queue) + if old(state) == Connected then [Disconnect(id)] else []
      ensures recvRing.Contents() == old(recvRing.Contents())
    {
      if state != Connected {
        return;
      }
      state := Closing;
      Close();
      jobs.Push(Disconnect(id));
    }

    /** Posts the receive unless one is posted. starts is the kernel's answer: refused, the session closes. */
    method PostRecv(starts: bool)
      requires Sound()
      modifies this`recvPosted, this`pendingIO, this`closeIssued, this`state, jobs
      ensures Sound()
      ensures if old(recvPosted) || old(state) != Connected
              then recvPosted == old(recvPosted) && pendingIO == old(pendingIO) && state == old(state) && jobs.queue == old(jobs.queue)
              else if starts
              then recvPosted && pendingIO == old(pendingIO) + 1 && state == Connected && jobs.queue == old(jobs.queue)
              else !recvPosted && pendingIO == old(pendingIO) && state == Closed && jobs.queue == old(jobs.queue) + [Disconnect(id)]
      ensures recvRing.Contents() == old(recvRing.Contents())
    {
      if state != Connected {
        return;
      }
      if recvPosted {
        return;
      }
      recvPosted := true;
      pendingIO := pendingIO + 1;
      if !starts {
        recvPosted := false;
        pendingIO := pendingIO - 1;
        RequestClose();
      }
    }

    /** starts is the kernel's answer: with it the bytes are on their way, without it the session closes. */
    method PostSend(data: seq<byte>, starts: bool)
      requires Sound()
      modifies this`pendingIO, this`outbox, this`closeIssued, this`state, jobs
      ensures Sound()
      ensures if old(state) != Connected || |data| == 0 || |data| > MAX_PACKET_SIZE
              then outbox == old(outbox) && pendingIO == old(pendingIO) && state == old(state) && jobs.queue == old(jobs.queue)
              else if starts
              then outbox == old(outbox) + [data] && pendingIO == old(pendingIO) + 1 && state == Connected && jobs.queue == old(jobs.queue)
              else outbox == old(outbox) && pendingIO == old(pendingIO) && state == Closed && jobs.queue == old(jobs.queue) + [Disconnect(id)]
      ensures recvRing.Contents() == old(recvRing.Contents())
    {
      if state == Closed || |data| <= 0 || |data| > MAX_PACKET_SIZE {
        return;
      }
      pendingIO := pendingIO + 1;
      if starts {
        outbox := outbox + [data];
      } else {
        pendingIO := pendingIO - 1;
        RequestClose();
      }
    }

    /** What leaves is the packet printed; only a closed session or a packet too large keeps it back. */
    method SendPacket(packetId: nat, data: seq<byte>, starts: bool)
      requires Sound() && packetId < 65536 && |data| < 65536
      modifies this`pendingIO, this`outbox, this`closeIssued, this`state, jobs
      ensures Sound()
      ensures if old(state) != Connected || HEADER_SIZE + |data| > MAX_PACKET_SIZE
              then outbox == old(outbox) && pendingIO == old(pendingIO) && state == old(state) && jobs.queue == old(jobs.queue)
              else if starts
              then outbox == old(outbox) + [Print(Packet(packetId, data))] && pendingIO == old(pendingIO) + 1
                   && state == Connected && jobs.queue == old(jobs.queue)
              else outbox == old(outbox) && pendingIO == old(pendingIO) && state == Closed && jobs.queue == old(jobs.queue) + [Disconnect(id)]
      ensures recvRing.Contents() == old(recvRing.Contents())
    {
      if packetId != SC_SHUTDOWN && state != Connected {
        return;
      }
      var packetSize := HEADER_SIZE + |data|;
      if packetSize < HEADER_SIZE || packetSize > MAX_PACKET_SIZE {
        return;
      }
      var packet := new byte[packetSize](_ => 0);
      var header := U16(packetSize) + U16(packetId);
      forall i | 0 <= i < HEADER_SIZE { packet[i] := header[i]; }
      forall i | 0 <= i < |data| { packet[HEADER_SIZE + i] := data[i]; }
      assert packet[..] == Print(Packet(packetId, data));
      PostSend(packet[..], starts);
    }

    /** A known packet becomes a job. Any other is answered, on an open session, with a kick, whose send the kernel
        starts or not, and closes it. A session being closed drops the packet. */
    method ProcessPacket(pkt: Packet, starts: bool)
      requires Sound() || BeingClosed()
      modifies this`pendingIO, this`outbox, this`closeIssued, this`state, jobs
      ensures if old(state) == Closing then BeingClosed() else Sound()
      ensures old(state) == Closing ==> closeIssued == old(closeIssued) && jobs.queue == old(jobs.queue)
      ensures old(state) != Closing ==>
                jobs.queue == old(jobs.queue) +
                if pkt.Valid() && Known(pkt.id) then [Deliver(id, pkt)] else if old(state) == Connected then [Disconnect(id)] else []
      ensures old(state) != Closing ==> state == if pkt.Valid() && Known(pkt.id) then old(state) else Closed
      ensures outbox == old(outbox) +
                        if old(state) == Connected && starts && !(pkt.Valid() && Known(pkt.id)) then [Print(KICK)] else []
      ensures pendingIO - |outbox| == old(pendingIO) - |old(outbox)|
      ensures recvRing.Valid() && recvRing.Contents() == old(recvRing.Contents())
    {
      if state == Closing {
        return;
      }
      if !pkt.Valid() {
        SendPacket(SC_KICK, [], starts);
        RequestClose();
        return;
      }
      if !Known(pkt.id) {
        SendPacket(SC_KICK, [], starts);
        RequestClose();
        return;
      }
      jobs.Push(Deliver(id, pkt));
    }

    /** One completed receive: everything the stream now holds is framed and handed over, and the receive is posted
        again unless the session closed. kicks and receives are the kernel's answers to the one send and the one
        receive a batch can ask it for. */
    method OnRecvComplete(bytes: nat, success: bool, kicks: bool, receives: bool)
      requires Valid() && recvPosted && bytes <= BUFFER_SIZE
      modifies this, recvRing, recvRing.buffer, jobs
      ensures Valid()
      ensures recvPosted <==> state == Connected
      ensures pendingIO - |outbox| == old(pendingIO) - |old(outbox)| - 1 + if recvPosted then 1 else 0
      ensures old(state) != Connected ==> state == old(state) && jobs.queue == old(jobs.queue) && outbox == old(outbox)
      ensures !success || bytes == 0 ==>
                && state == Closed && recvRing.Contents() == old(recvRing.Contents()) && outbox == old(outbox)
                && jobs.queue == old(jobs.queue) + if old(state) == Connected then [Disconnect(id)] else []
      ensures success && bytes > 0 && old(state) == Connected ==>
                var r := Parse(old(recvRing.Contents()) + old(recvBuffer[..bytes]));
                && recvRing.Contents() == r.rest
                && (state == Connected <==> AllKnown(r.packets) && !r.bad && receives)
                && jobs.queue == old(jobs.queue) + Handoff(id, true, r.packets) +
                                 (if AllKnown(r.packets) && state != Connected then [Disconnect(id)] else [])
                && outbox == old(outbox) + Kicks(r.packets, kicks)
    {
      recvPosted := false;
      pendingIO := pendingIO - 1;
      if !success || bytes == 0 {
        RequestClose();
        return;
      }
      if state != Connected {
        return;
      }
      WaitingIsShort(recvRing.Contents());
      var fits := recvRing.Write(recvBuffer, bytes);
      if !fits {
        assert false;   // RecvRing overflow: cannot happen
      }
      Frame(kicks, receives);
    }

    /** The framing loop: takes complete packets off the ring until it waits or meets a bad header. */
    method Frame(kicks: bool, receives: bool)
      requires Sound() && state == Connected && !recvPosted
      modifies this, recvRing`readPos, recvRing`storedBytes, jobs
      ensures Valid()
      ensures recvPosted <==> state == Connected
      ensures pendingIO - |outbox| == old(pendingIO) - |old(outbox)| + if recvPosted then 1 else 0
      ensures var r := Parse(old(recvRing.Contents()));
              && recvRing.Contents() == r.rest
              && (state == Connected <==> AllKnown(r.packets) && !r.bad && receives)
              && jobs.queue == old(jobs.queue) + Handoff(id, true, r.packets) +
                               (if AllKnown(r.packets) && state != Connected then [Disconnect(id)] else [])
              && outbox == old(outbox) + Kicks(r.packets, kicks)
    {
      ghost var stream := recvRing.Contents();
      ghost var q0 := jobs.queue;
      ghost var done: seq<Packet> := [];
      var verdict := Took;
      while verdict == Took
        invariant Sound() && !recvPosted
        invariant pendingIO - |outbox| == old(pendingIO) - |old(outbox)|
        invariant outbox == old(outbox) + Kicks(done, kicks)
        invariant verdict == Took ==> Framed(id, q0, stream, done, recvRing.Contents(), state == Connected, jobs.queue)
        invariant verdict != Took ==> Parse(stream) == Parsed(done, recvRing.Contents(), verdict == Malformed)
        invariant verdict == Waits ==> (state == Connected <==> AllKnown(done)) && jobs.queue == q0 + Handoff(id, true, done)
        invariant verdict == Malformed ==>
                    && state == Closed
                    && jobs.queue == q0 + Handoff(id, true, done) + if AllKnown(done) then [Disconnect(id)] else []
        decreases verdict == Took, recvRing.storedBytes
      {
        ghost var now, live, queue := recvRing.Contents(), state == Connected, jobs.queue;
        verdict := FrameOne(kicks);
        if verdict == Took {
          FramedTake(id, q0, stream, done, now, live, queue);
          AllKnownSnoc(done, Head(now));
          PlusAssociates(old(outbox), Kicks(done, kicks), if live && kicks && !Known(Head(now).id) then [Print(KICK)] else []);
          done := done + [Head(now)];
        } else {
          FramedEnd(id, q0, stream, done, now, live, queue);
        }
      }
      if verdict == Waits {
        PostRecv(receives);
      }
    }

    /** One turn of the framing loop. */
    method FrameOne(kicks: bool) returns (verdict: Verdict)
      requires Sound() && !recvPosted
      modifies this, recvRing`readPos, recvRing`storedBytes, jobs
      ensures Sound() && !recvPosted
      ensures pendingIO - |outbox| == old(pendingIO) - |old(outbox)|
      ensures var now := old(recvRing.Contents());
              && (verdict == Waits <==> Waiting(now))
              && (verdict == Malformed <==> F.Malformed(now))
              && (verdict != Took ==> outbox == old(outbox))
              && (verdict == Waits ==> recvRing.Contents() == now && state == old(state) && jobs.queue == old(jobs.queue))
              && (verdict == Malformed ==>
                    && recvRing.Contents() == now
                    && state == Closed
                    && jobs.queue == old(jobs.queue) + if old(state) == Connected then [Disconnect(id)] else [])
              && (verdict == Took ==>
                    && recvRing.Contents() == now[ReadU16(now, 0)..]
                    && state == (if Known(Head(now).id) then old(state) else Closed)
                    && jobs.queue == old(jobs.queue) + HandoffOne(id, old(state) == Connected, Head(now))
                    && outbox == old(outbox) + if old(state) == Connected && kicks && !Known(Head(now).id) then [Print(KICK)] else [])
    {
      if !recvRing.Has(HEADER_SIZE) {
        return Waits;
      }
      var size, pktId := PeekHeader();
      if size < HEADER_SIZE || size > MAX_PACKET_SIZE {
        RequestClose();
        return Malformed;
      }
      if !recvRing.Has(size) {
        return Waits;
      }
      TakePacket(size, pktId, kicks);
      return Took;
    }

    /** The packet at the front is complete: its header comes off, it is processed, its body comes off. */
    method TakePacket(size: nat, pktId: nat, kicks: bool)
      requires Sound() && !Waiting(recvRing.Contents()) && !F.Malformed(recvRing.Contents())
      requires size == ReadU16(recvRing.Contents(), 0) && pktId == ReadU16(recvRing.Contents(), 2)
      modifies this, recvRing`readPos, recvRing`storedBytes, jobs
      ensures Sound() && recvPosted == old(recvPosted)
      ensures pendingIO - |outbox| == old(pendingIO) - |old(outbox)|
      ensures var now := old(recvRing.Contents());
              && recvRing.Contents() == now[size..]
              && state == (if Known(Head(now).id) then old(state) else Closed)
              && jobs.queue == old(jobs.queue) + HandoffOne(id, old(state) == Connected, Head(now))
              && outbox == old(outbox) + if old(state) == Connected && kicks && !Known(Head(now).id) then [Print(KICK)] else []
    {
      ghost var now := recvRing.Contents();
      recvRing.Skip(HEADER_SIZE);
      var body := PeekBody(size - HEADER_SIZE);
      assert body == now[HEADER_SIZE..size];
      ProcessPacket(Packet(pktId, body), kicks);
      recvRing.Skip(size - HEADER_SIZE);
      assert recvRing.Contents() == now[size..];
    }

    method PeekHeader() returns (size: nat, pktId: nat)
      requires recvRing.Valid() && |recvRing.Contents()| >= HEADER_SIZE
      ensures size == ReadU16(recvRing.Contents(), 0) && pktId == ReadU16(recvRing.Contents(), 2)
      ensures recvRing.Valid() && recvRing.Contents() == old(recvRing.Contents())
    {
      var header := new byte[HEADER_SIZE](_ => 0);
      var peeked := recvRing.Peek(header, HEADER_SIZE);
      if !peeked {
        assert false;   // Has has just said there are enough bytes
      }
      ReadInPrefix(recvRing.Contents(), header[..]);
      size, pktId := ReadU16(header[..], 0), ReadU16(header[..], 2);
    }

    method PeekBody(size: nat) returns (body: seq<byte>)
      requires recvRing.Valid() && size <= |recvRing.Contents()|
      requires size <= MAX_PACKET_SIZE
      ensures body == recvRing.Contents()[..size]
      ensures recvRing.Valid() && recvRing.Contents() == old(recvRing.Contents())
    {
      var bytes := new byte[size](_ => 0);
      var peeked := recvRing.Peek(bytes, size);
      if !peeked {
        assert false;   // the body is in the ring: Has(header.size) held
      }
      body := bytes[..];
    }
  }
}
