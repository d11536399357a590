/**
 The clients' ends of the stream: the Unity client's receive loop over a growing list, the console
 client's receive thread and its packet printer. All read what the server's framer reads.
 */
module Clients {
  import opened Bytes
  import opened Framing
  import opened Protocol
  import opened ChatCodec

  /** Packets after which a client stops. */
  predicate IsStop(p: Packet) {
    p.id == SC_SHUTDOWN || p.id == SC_KICK
  }

  predicate HasStop(ps: seq<Packet>) {
    exists i :: 0 <= i < |ps| && IsStop(ps[i])
  }

  /** Why a client reads no further: a header no packet can have, or a packet that says so. */
  predicate Halted(p: Parsed) {
    p.bad || HasStop(p.packets)
  }

  lemma {:induction false} FeedGrows(chunks: seq<seq<byte>>, n: nat)
    requires n <= |chunks|
    ensures Feed(chunks[..n]).packets <= Feed(chunks).packets
    ensures Feed(chunks[..n]).bad ==> Feed(chunks) == Feed(chunks[..n])
    decreases |chunks|
  {
    if n < |chunks| {
      var init := chunks[..|chunks| - 1];
      FeedGrows(init, n);
      assert init[..n] == chunks[..n];
    } else {
      assert chunks[..n] == chunks;
    }
  }

  lemma HasStopOfPrefix(a: seq<Packet>, b: seq<Packet>)
    requires a <= b
    ensures HasStop(a) ==> HasStop(b)
  {
    if i :| 0 <= i < |a| && IsStop(a[i]) {
      assert b[i] == a[i];
    }
  }

  /** A reason to stop stays one. */
  lemma HaltLasts(chunks: seq<seq<byte>>, k: nat, n: nat)
    requires k <= n <= |chunks| && Halted(Feed(chunks[..k]))
    ensures Halted(Feed(chunks[..n]))
  {
    assert chunks[..n][..k] == chunks[..k];
    FeedGrows(chunks[..n], k);
    HasStopOfPrefix(Feed(chunks[..k]).packets, Feed(chunks[..n]).packets);
  }

  /** Reading stopped early only because of the stream itself, and nothing in the stream says stop: then
      everything in it was read. */
  lemma NothingWasMissed(chunks: seq<seq<byte>>, n: nat)
    requires n <= |chunks| && (n < |chunks| ==> Halted(Feed(chunks[..n])))
    requires !HasStop(Parse(Concat(chunks)).packets)
    ensures Feed(chunks[..n]).packets == Parse(Concat(chunks)).packets
  {
    FeedIsParse(chunks);
    FeedGrows(chunks, n);
    if n < |chunks| {
      HasStopOfPrefix(Feed(chunks[..n]).packets, Feed(chunks).packets);
    } else {
      assert chunks[..n] == chunks;
    }
  }

  lemma HasStopOfAppend(a: seq<Packet>, b: seq<Packet>)
    ensures HasStop(a + b) <==> HasStop(a) || HasStop(b)
  {
    if i :| 0 <= i < |a| && IsStop(a[i]) {
      assert (a + b)[i] == a[i];
    }
    if i :| 0 <= i < |b| && IsStop(b[i]) {
      assert (a + b)[|a| + i] == b[i];
    }
  }

  /** One chunk more, while the header at the front is a good one. */
  lemma FeedMore(chunks: seq<seq<byte>>, n: nat)
    requires n < |chunks| && !Feed(chunks[..n]).bad
    ensures var before, after := Feed(chunks[..n]), Feed(chunks[..n + 1]);
            var now := Parse(before.rest + chunks[n]);
            && after == Parsed(before.packets + now.packets, now.rest, now.bad)
            && (Halted(after) <==> HasStop(before.packets) || Halted(now))
  {
    assert chunks[..n + 1][..n] == chunks[..n];
    HasStopOfAppend(Feed(chunks[..n]).packets, Parse(Feed(chunks[..n]).rest + chunks[n]).packets);
  }

  // ---- the Unity client ---------------------------------------------------------------------------

  class UnityClient {
    var running: bool
    var handled: seq<Packet>                    // what HandlePacket was given
    var chats: seq<ParsedChat>                  // what HandleServerChat made of the chats among them

    constructor ()
      ensures running && handled == [] && chats == []
    {
      running, handled, chats := true, [], [];
    }

    method HandlePacket(pktId: nat, packet: seq<byte>, bodyOffset: nat, bodySize: nat)
      requires bodyOffset + bodySize <= |packet|
      modifies this`running, this`handled, this`chats
      ensures var p := Packet(pktId, packet[bodyOffset..bodyOffset + bodySize]);
              && handled == old(handled) + [p]
              && running == (old(running) && !IsStop(p))
              && chats == old(chats) + if pktId == SC_CHAT then [ReadChat(p.body)] else []
    {
      handled := handled + [Packet(pktId, packet[bodyOffset..bodyOffset + bodySize])];
      if pktId == SC_CHAT {
        var ok, senderId, senderName, message := HandleServerChat(packet, bodyOffset, bodySize);
        chats := chats + [if ok then ParsedChat(senderId, senderName, message) else NotAChat];
      } else if pktId == SC_SHUTDOWN {
        running := false;
      } else if pktId == SC_KICK {
        running := false;
      }
    }

    /** The inner loop: every complete packet at the front of the list is handled, even after one that stops. */
    method Drain(streamBuf: seq<byte>) returns (rest: seq<byte>)
      modifies this`running, this`handled, this`chats
      ensures var r := Parse(streamBuf);
              && handled == old(handled) + r.packets && rest == r.rest
              && running == (old(running) && !Halted(r))
    {
      rest := streamBuf;
      ghost var done: seq<Packet> := [];
      while true
        invariant handled == old(handled) + done
        invariant done + Parse(rest).packets == Parse(streamBuf).packets
        invariant Parse(rest).rest == Parse(streamBuf).rest && Parse(rest).bad == Parse(streamBuf).bad
        invariant running == (old(running) && !HasStop(done))
        decreases |rest|
      {
        if |rest| < HEADER_SIZE {
          break;
        }
        var pktSize := ReadU16(rest, 0);
        var pktId := ReadU16(rest, 2);
        if pktSize < HEADER_SIZE || pktSize > MAX_PACKET_SIZE {
          running := false;
          break;
        }
        if |rest| < pktSize {
          break;
        }
        var packet := rest[..pktSize];
        HandlePacket(pktId, packet, HEADER_SIZE, pktSize - HEADER_SIZE);
        ParseTake(rest);
        assert packet[HEADER_SIZE..HEADER_SIZE + (pktSize - HEADER_SIZE)] == rest[HEADER_SIZE..pktSize];
        PlusAssociates(done, [Head(rest)], Parse(rest[pktSize..]).packets);
        HasStopOfAppend(done, [Head(rest)]);
        assert [Head(rest)][0] == Head(rest);
        done := done + [Head(rest)];
        rest := rest[pktSize..];
      }
      ParseNothing(rest);
      assert done + [] == done;
    }

    /** chunks[i] is what the i-th Receive returns, empty when the server has closed; n is how many were read. */
    method Receive(chunks: seq<seq<byte>>) returns (n: nat)
      requires running
      requires forall i :: 0 <= i < |chunks| ==> |chunks[i]| <= 4096
      modifies this
      ensures n <= |chunks|
      ensures handled == old(handled) + Feed(chunks[..n]).packets
      ensures n < |chunks| ==> chunks[n] == [] || Halted(Feed(chunks[..n]))
      ensures forall k :: 0 <= k < n ==> chunks[k] != []
      ensures n > 0 ==> !Halted(Feed(chunks[..n - 1]))
    {
      var streamBuf: seq<byte> := [];
      n := 0;
      assert chunks[..0] == [];
      while running && n < |chunks|
        invariant 0 <= n <= |chunks|
        invariant handled == old(handled) + Feed(chunks[..n]).packets
        invariant running == !Halted(Feed(chunks[..n]))
        invariant running ==> streamBuf == Feed(chunks[..n]).rest && Waiting(streamBuf)
        invariant forall k :: 0 <= k < n ==> chunks[k] != []
        invariant n > 0 ==> !Halted(Feed(chunks[..n - 1]))
      {
        var recvBuf := chunks[n];
        if |recvBuf| == 0 {
          break;
        }
        WaitingIsShort(streamBuf);
        if |streamBuf| + |recvBuf| > MAX_PACKET_SIZE * 2 {
          assert false;   // the overflow guard: a left-over shorter than a packet and one receive always fit
        }
        FeedMore(chunks, n);
        PlusAssociates(old(handled), Feed(chunks[..n]).packets, Parse(streamBuf + recvBuf).packets);
        streamBuf := Drain(streamBuf + recvBuf);
        n := n + 1;
      }
    }

    /** Reading stops at the first chunk that gives a reason to, and a stream that gives none is handled
        whole, as the server's parser reads it. */
    method RecvLoop(chunks: seq<seq<byte>>) returns (n: nat)
      requires running
      requires forall i :: 0 <= i < |chunks| ==> |chunks[i]| <= 4096
      modifies this
      ensures !running && n <= |chunks|
      ensures handled == old(handled) + Feed(chunks[..n]).packets
      ensures n < |chunks| ==> chunks[n] == [] || Halted(Feed(chunks[..n]))
      ensures forall k :: 0 <= k < n ==> chunks[k] != [] && !Halted(Feed(chunks[..k]))
      ensures !HasStop(Parse(Concat(chunks)).packets) && (forall i :: 0 <= i < |chunks| ==> chunks[i] != []) ==>
                handled == old(handled) + Parse(Concat(chunks)).packets
    {
      n := Receive(chunks);
      forall k | 0 <= k < n
        ensures !Halted(Feed(chunks[..k]))
      {
        if Halted(Feed(chunks[..k])) {
          HaltLasts(chunks, k, n - 1);
        }
      }
      if !HasStop(Parse(Concat(chunks)).packets) && (n < |chunks| ==> Halted(Feed(chunks[..n]))) {
        NothingWasMissed(chunks, n);
      }
      running := false;   // ForceDisconnectFromWorker
    }
  }

  // ---- the console client -------------------------------------------------------------------------

  /** The packets up to and with the first that stops. */
  function UpToStop(ps: seq<Packet>): seq<Packet> {
    if ps == [] then []
    else if IsStop(ps[0]) then [ps[0]]
    else [ps[0]] + UpToStop(ps[1..])
  }

  lemma {:induction false} UpToNoStop(ps: seq<Packet>)
    requires !HasStop(ps)
    ensures UpToStop(ps) == ps
  {
    if ps != [] {
      assert !IsStop(ps[0]);
      forall i | 0 <= i < |ps[1..]|
        ensures !IsStop(ps[1..][i])
      {
        assert ps[1..][i] == ps[i + 1];
      }
      UpToNoStop(ps[1..]);
    }
  }

  /** One packet off the front of what is still to come. */
  lemma UpToStopTake(done: seq<Packet>, front: seq<byte>)
    requires !Waiting(front) && !Malformed(front)
    ensures var p := Head(front);
            done + UpToStop(Parse(front).packets) ==
            done + [p] + if IsStop(p) then [] else UpToStop(Parse(front[ReadU16(front, 0)..]).packets)
  {
    ParseTake(front);
    var tail := Parse(front[ReadU16(front, 0)..]).packets;
    assert ([Head(front)] + tail)[1..] == tail;
    PlusAssociates(done, [Head(front)], UpToStop(tail));
  }

  /** The bytes of len that a socket takes with these answers: none after an error, or after the last answer. */
  function TakenOf(answers: seq<int>, len: nat): (n: nat)
    ensures n <= len
  {
    if len == 0 || answers == [] || answers[0] <= 0 then 0
    else if answers[0] >= len then len
    else answers[0] + TakenOf(answers[1..], len - answers[0])
  }

  function Total(answers: seq<int>): int {
    if answers == [] then 0 else answers[0] + Total(answers[1..])
  }

  /** The first answers are no errors and add up to len. */
  ghost predicate AddUpTo(answers: seq<int>, len: nat) {
    exists k :: 0 <= k <= |answers| && (forall i :: 0 <= i < k ==> answers[i] > 0) && Total(answers[..k]) >= len
  }

  lemma {:induction false} TakenAll(answers: seq<int>, len: nat)
    ensures TakenOf(answers, len) == len <==> AddUpTo(answers, len)
  {
    if len == 0 {
      assert Total(answers[..0]) == 0;
    } else if answers == [] || answers[0] <= 0 {
      assert Total(answers[..0]) == 0;
    } else if answers[0] >= len {
      assert answers[..1][1..] == [] && Total(answers[..1]) == answers[0];
    } else {
      TakenAll(answers[1..], len - answers[0]);
      AddUpCons(answers, len);
    }
  }

  lemma AddUpCons(answers: seq<int>, len: nat)
    requires answers != [] && 0 < answers[0] < len
    ensures AddUpTo(answers, len) <==> AddUpTo(answers[1..], len - answers[0])
  {
    var rest := answers[1..];
    if AddUpTo(answers, len) {
      var k :| 0 <= k <= |answers| && (forall i :: 0 <= i < k ==> answers[i] > 0) && Total(answers[..k]) >= len;
      assert k > 0 && answers[..k][1..] == rest[..k - 1];
      assert forall i :: 0 <= i < k - 1 ==> rest[i] == answers[i + 1];
    }
    if AddUpTo(rest, len - answers[0]) {
      var k :| 0 <= k <= |rest| && (forall i :: 0 <= i < k ==> rest[i] > 0) && Total(rest[..k]) >= len - answers[0];
      assert answers[..k + 1][1..] == rest[..k];
      assert forall i :: 0 < i < k + 1 ==> answers[i] == rest[i - 1];
    }
  }

  class ConsoleClient {
    var unread: seq<byte>       // what the server has sent before closing, not yet read
    var handled: seq<Packet>
    var sent: seq<byte>         // what the socket has taken

    constructor (stream: seq<byte>)
      ensures unread == stream && handled == [] && sent == []
    {
      unread, handled, sent := stream, [], [];
    }

    /** Any number of recv calls of any sizes: all len bytes, or the connection ends first. */
    method RecvAll(len: nat) returns (ok: bool, buffer: seq<byte>)
      modifies this`unread
      ensures ok <==> len <= |old(unread)|
      ensures ok ==> buffer == old(unread)[..len] && unread == old(unread)[len..]
    {
      buffer := [];
      while |buffer| < len
        invariant |buffer| <= len && buffer + unread == old(unread)
        decreases len - |buffer|
      {
        if unread == [] {
          return false, buffer;
        }
        var most := if len - |buffer| < |unread| then len - |buffer| else |unread|;
        var recvBytes: nat :| 0 < recvBytes <= most;
        buffer := buffer + unread[..recvBytes];
        unread := unread[recvBytes..];
      }
      assert old(unread)[..len] == buffer;
      ok := true;
    }

    /** The receive thread handles the packets of the stream up to the first that stops it. */
    method RecvThread()
      modifies this`unread, this`handled
      ensures handled == old(handled) + UpToStop(Parse(old(unread)).packets)
      ensures !HasStop(Parse(old(unread)).packets) ==> handled == old(handled) + Parse(old(unread)).packets
    {
      ghost var done: seq<Packet> := [];
      ghost var stream := unread;
      if !HasStop(Parse(stream).packets) {
        UpToNoStop(Parse(stream).packets);
      }
      while true
        invariant handled == old(handled) + done
        invariant done + UpToStop(Parse(unread).packets) == UpToStop(Parse(stream).packets)
        decreases |unread|
      {
        ghost var front := unread;
        var gotHeader, header := RecvAll(HEADER_SIZE);
        if !gotHeader {
          assert done + [] == done;
          return;
        }
        var pktSize := ReadU16(header, 0);
        var pktId := ReadU16(header, 2);
        assert pktSize == ReadU16(front, 0) && pktId == ReadU16(front, 2);
        if pktSize < HEADER_SIZE || pktSize > MAX_PACKET_SIZE {
          ParseNothing(front);
          assert done + [] == done;
          return;
        }
        var gotBody, body := RecvAll(pktSize - HEADER_SIZE);
        if !gotBody {
          ParseNothing(front);
          assert done + [] == done;
          return;
        }
        assert body == front[HEADER_SIZE..pktSize] && unread == front[pktSize..];
        UpToStopTake(done, front);
        handled := handled + [Packet(pktId, body)];
        done := done + [Head(front)];
        if pktId == SC_SHUTDOWN || pktId == SC_KICK {
          return;
        }
      }
    }

    /** answers are what the calls of send return, as long as the connection lasts: the bytes taken, or an error. All of
        data has been sent when the answers add up to it before an error; otherwise its first part has. */
    method SendAll(data: seq<byte>, answers: seq<int>) returns (ok: bool)
      modifies this`sent
      ensures ok <==> AddUpTo(answers, |data|)
      ensures sent == old(sent) + data[..TakenOf(answers, |data|)]
    {
      var sentTotal, calls := 0, 0;
      TakenAll(answers, |data|);
      while sentTotal < |data|
        invariant 0 <= sentTotal <= |data| && 0 <= calls <= |answers| && sent == old(sent) + data[..sentTotal]
        invariant sentTotal + TakenOf(answers[calls..], |data| - sentTotal) == TakenOf(answers, |data|)
      {
        if calls == |answers| || answers[calls] <= 0 {
          return false;
        }
        var n := if answers[calls] <= |data| - sentTotal then answers[calls] else |data| - sentTotal;
        assert data[..sentTotal + n] == data[..sentTotal] + data[sentTotal..sentTotal + n];
        PlusAssociates(old(sent), data[..sentTotal], data[sentTotal..sentTotal + n]);
        assert answers[calls..][1..] == answers[calls + 1..];
        sent := sent + data[sentTotal..sentTotal + n];
        sentTotal := sentTotal + n;
        calls := calls + 1;
      }
      ok := true;
    }

    /** What reaches the socket is the packet printed, as far as the socket takes it; a packet too large is refused. */
    method SendPacket(pktId: nat, body: seq<byte>, answers: seq<int>) returns (ok: bool)
      requires pktId < 65536
      modifies this`sent
      ensures ok <==> HEADER_SIZE + |body| <= MAX_PACKET_SIZE && AddUpTo(answers, HEADER_SIZE + |body|)
      ensures sent == old(sent) + if HEADER_SIZE + |body| <= MAX_PACKET_SIZE
                                  then Print(Packet(pktId, body))[..TakenOf(answers, HEADER_SIZE + |body|)] else []
      ensures ok ==> sent == old(sent) + Print(Packet(pktId, body))
    {
      var packetSize := HEADER_SIZE + |body|;
      if packetSize < HEADER_SIZE || packetSize > MAX_PACKET_SIZE {
        assert old(sent) + [] == old(sent);
        return false;
      }
      var packet := new byte[packetSize](_ => 0);
      CopyTo(packet, 0, U16(packetSize));
      CopyTo(packet, 2, U16(pktId));
      if |body| > 0 {
        CopyTo(packet, HEADER_SIZE, body);
      }
      assert packet[..] == Print(Packet(pktId, body));
      TakenAll(answers, packetSize);
      ok := SendAll(packet[..], answers);
    }
  }

  /** Any packets sent one after the other arrive as they are, however the stream is cut on the way. */
  lemma SentPacketsArrive(ps: seq<Packet>, chunks: seq<seq<byte>>)
    requires AllValid(ps) && Concat(chunks) == PrintAll(ps)
    ensures Feed(chunks) == Parsed(ps, [], false)
  {
    FeedIsParse(chunks);
    ParseOfPrintAll(ps, []);
    assert PrintAll(ps) + [] == PrintAll(ps) && ps + [] == ps;
    ParseNothing([]);
  }
}
