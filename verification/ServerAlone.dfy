/**
 A worker left alone: with no other thread in between, the steps of the framing loop do what the method
 Session.OnRecvComplete is proved to do.
 */
module ServerAlone {
  import opened Bytes
  import opened Framing
  import opened Protocol
  import opened Session
  import opened Server

  /** One thread, the session it is at, the job log and the packets whose send it has started. */
  datatype Solo = Solo(pc: Pc, d: Sess, log: seq<Job>, out: seq<Packet>)

  /** The packet a step starts to send. */
  function StartedBy(pc: Pc, touch: Touch): seq<Packet> {
    if touch.StartSend? && pc.Sending? && pc.send.SendCall? then [pc.send.pk] else []
  }

  /** The next turn of thread t, if it can take one; kicks is the kernel's answer if it is asked to send. */
  function OneTurn(t: Tid, kicks: bool, solo: Solo): Solo {
    if !MayTurn(solo.pc, solo.d) then solo
    else
      var turn := TurnOf(t, solo.pc, solo.d, !kicks, 0, |solo.log|);
      Solo(turn.pc, turn.d, solo.log + JobsOf(turn.touch), solo.out + StartedBy(solo.pc, turn.touch))
  }

  /** n turns of thread t with nobody in between. */
  function Alone(t: Tid, kicks: bool, solo: Solo, n: nat): Solo
    decreases n
  {
    if n == 0 then solo else Alone(t, kicks, OneTurn(t, kicks, solo), n - 1)
  }

  lemma {:induction false} AloneOn(t: Tid, kicks: bool, solo: Solo, n: nat, m: nat)
    ensures Alone(t, kicks, solo, n + m) == Alone(t, kicks, Alone(t, kicks, solo, n), m)
    decreases n
  {
    if n > 0 {
      AloneOn(t, kicks, OneTurn(t, kicks, solo), n - 1, m);
    }
  }

  lemma ScanAlone(t: Tid, kicks: bool, s: Sid, d: Sess, log: seq<Job>, out: seq<Packet>)
    requires !Waiting(d.ring) && !Framing.Malformed(d.ring)
    ensures var p := Head(d.ring);
            OneTurn(t, kicks, Solo(Scanning(s, FrameScan), d, log, out)) ==
            Solo(Scanning(s, ProcGate(p)), d.(ring := d.ring[HEADER_SIZE..], taken := d.taken + [p]), log, out)
  {
    assert log + [] == log && out + [] == out;
  }

  lemma GateAlone(t: Tid, kicks: bool, s: Sid, p: Packet, d: Sess, log: seq<Job>, out: seq<Packet>)
    requires d.state != SessionState.Closing && p.Valid() && Known(p.id)
    ensures OneTurn(t, kicks, Solo(Scanning(s, ProcGate(p)), d, log, out)) == Solo(Scanning(s, ProcPush(p)), d, log, out)
  {
    assert log + [] == log && out + [] == out;
  }

  lemma PushAlone(t: Tid, kicks: bool, s: Sid, p: Packet, d: Sess, log: seq<Job>, out: seq<Packet>)
    ensures OneTurn(t, kicks, Solo(Scanning(s, ProcPush(p)), d, log, out)) == Solo(Scanning(s, SkipBody(p)), d, log + [Deliver(s, p)], out)
  {
    assert out + [] == out;
  }

  lemma SkipAlone(t: Tid, kicks: bool, s: Sid, p: Packet, d: Sess, log: seq<Job>, out: seq<Packet>)
    requires |p.body| <= |d.ring|
    ensures OneTurn(t, kicks, Solo(Scanning(s, SkipBody(p)), d, log, out)) ==
            Solo(Scanning(s, FrameScan), d.(ring := d.ring[|p.body|..]), log, out)
  {
    assert log + [] == log && out + [] == out;
  }

  lemma FourTurns(t: Tid, kicks: bool, a: Solo, b: Solo, c: Solo, d: Solo, e: Solo)
    requires OneTurn(t, kicks, a) == b && OneTurn(t, kicks, b) == c && OneTurn(t, kicks, c) == d && OneTurn(t, kicks, d) == e
    ensures Alone(t, kicks, a, 4) == e
  {
    assert Alone(t, kicks, d, 1) == Alone(t, kicks, e, 0) == e;
    assert Alone(t, kicks, c, 2) == Alone(t, kicks, d, 1);
    assert Alone(t, kicks, b, 3) == Alone(t, kicks, c, 2);
  }

  /** One known packet: its header comes off, it is let through, pushed, and its body comes off. */
  lemma PacketAlone(t: Tid, kicks: bool, s: Sid, d: Sess, log: seq<Job>, out: seq<Packet>)
    requires d.state != SessionState.Closing && !Waiting(d.ring) && !Framing.Malformed(d.ring) && Known(Head(d.ring).id)
    ensures var p := Head(d.ring);
            Alone(t, kicks, Solo(Scanning(s, FrameScan), d, log, out), 4) ==
            Solo(Scanning(s, FrameScan), d.(ring := d.ring[ReadU16(d.ring, 0)..], taken := d.taken + [p]), log + [Deliver(s, p)], out)
  {
    var p := Head(d.ring);
    var d1 := d.(ring := d.ring[HEADER_SIZE..], taken := d.taken + [p]);
    var d2 := d1.(ring := d1.ring[|p.body|..]);
    assert d1.ring[|p.body|..] == d.ring[ReadU16(d.ring, 0)..];
    ScanAlone(t, kicks, s, d, log, out);
    GateAlone(t, kicks, s, p, d1, log, out);
    PushAlone(t, kicks, s, p, d1, log, out);
    SkipAlone(t, kicks, s, p, d1, log + [Deliver(s, p)], out);
    FourTurns(t, kicks, Solo(Scanning(s, FrameScan), d, log, out), Solo(Scanning(s, ProcGate(p)), d1, log, out),
              Solo(Scanning(s, ProcPush(p)), d1, log, out), Solo(Scanning(s, SkipBody(p)), d1, log + [Deliver(s, p)], out),
              Solo(Scanning(s, FrameScan), d2, log + [Deliver(s, p)], out));
  }

  /** As a worker finds it between packets: open, or closed for good. */
  predicate Settled(d: Sess) {
    d.state == Closed || (d.state == Connected && d.socketOpen && !d.closeIssued)
  }

  lemma FiveTurns(t: Tid, kicks: bool, a: Solo, b: Solo, c: Solo, d: Solo, e: Solo, f: Solo)
    requires OneTurn(t, kicks, a) == b && OneTurn(t, kicks, b) == c && OneTurn(t, kicks, c) == d && OneTurn(t, kicks, d) == e && OneTurn(t, kicks, e) == f
    ensures Alone(t, kicks, a, 5) == f
  {
    FourTurns(t, kicks, b, c, d, e, f);
    assert Alone(t, kicks, a, 5) == Alone(t, kicks, OneTurn(t, kicks, a), 4);
  }

  /** Up to the call of the kernel with the kick. */
  lemma CallAlone(t: Tid, kicks: bool, s: Sid, p: Packet, d: Sess, log: seq<Job>, out: seq<Packet>)
    requires d.state == Connected && !Known(p.id)
    ensures Alone(t, kicks, Solo(Scanning(s, ProcGate(p)), d, log, out), 4) ==
            Solo(Sending(s, SendCall(0, KICK), KickThenClose(p)), d.(pendingIO := d.pendingIO + 1), log, out)
  {
    var d1, ret := d.(pendingIO := d.pendingIO + 1), KickThenClose(p);
    assert KICK.Valid() && log + [] == log && out + [] == out;
    FourTurns(t, kicks, Solo(Scanning(s, ProcGate(p)), d, log, out), Solo(Sending(s, SendGate(KICK), ret), d, log, out),
              Solo(Sending(s, SendPost(KICK), ret), d, log, out), Solo(Sending(s, SendAdd(0, KICK), ret), d, log, out),
              Solo(Sending(s, SendCall(0, KICK), ret), d1, log, out));
  }

  /** An open session is sent the kick. */
  lemma KickAlone(t: Tid, s: Sid, p: Packet, d: Sess, log: seq<Job>, out: seq<Packet>)
    requires d.socketOpen
    ensures Alone(t, true, Solo(Sending(s, SendCall(0, KICK), KickThenClose(p)), d, log, out), 1) ==
            Solo(Ending(s, CloseCas, ToSkip(p)), d, log, out + [KICK])
  {
    assert log + [] == log;
    var a, b := Solo(Sending(s, SendCall(0, KICK), KickThenClose(p)), d, log, out), Solo(Ending(s, CloseCas, ToSkip(p)), d, log, out + [KICK]);
    assert OneTurn(t, true, a) == b;
    assert Alone(t, true, a, 1) == Alone(t, true, b, 0) == b;
  }

  /** Or the send fails, and its count is taken back. */
  lemma UndoAlone(t: Tid, s: Sid, p: Packet, d: Sess, log: seq<Job>, out: seq<Packet>)
    ensures Alone(t, false, Solo(Sending(s, SendCall(0, KICK), KickThenClose(p)), d, log, out), 3) ==
            Solo(Ending(s, CloseCas, KickThenClose(p)), d.(pendingIO := d.pendingIO - 1), log, out)
  {
    assert log + [] == log && out + [] == out;
    var ret, d1 := KickThenClose(p), d.(pendingIO := d.pendingIO - 1);
    var a, b := Solo(Sending(s, SendCall(0, KICK), ret), d, log, out), Solo(Sending(s, SendUndo(0), ret), d, log, out);
    var c, e := Solo(Sending(s, SendFree(0), ret), d1, log, out), Solo(Ending(s, CloseCas, ret), d1, log, out);
    ThreeTurns(t, false, a, b, c, e);
  }

  lemma ThreeTurns(t: Tid, kicks: bool, a: Solo, b: Solo, c: Solo, d: Solo)
    requires OneTurn(t, kicks, a) == b && OneTurn(t, kicks, b) == c && OneTurn(t, kicks, c) == d
    ensures Alone(t, kicks, a, 3) == d
  {
    assert Alone(t, kicks, c, 1) == Alone(t, kicks, d, 0) == d;
    assert Alone(t, kicks, b, 2) == Alone(t, kicks, c, 1);
  }

  function ClosedAt(d: Sess, logged: nat): Sess {
    d.(state := Closed, closeIssued := true, socketOpen := false, ending := JobQueued, disconnectAt := logged)
  }

  /** And closed. */
  lemma CloseAlone(t: Tid, kicks: bool, s: Sid, ret: Ret, d: Sess, log: seq<Job>, out: seq<Packet>)
    requires d.state == Connected && !d.closeIssued && !EndsReceive(ret)
    ensures Alone(t, kicks, Solo(Ending(s, CloseCas, ret), d, log, out), 5) ==
            Solo(Return(s, ret), ClosedAt(d, |log|), log + [Disconnect(s)], out)
  {
    var d1 := d.(state := SessionState.Closing, ending := ClosingBy(t));
    var d2 := d1.(closeIssued := true);
    var d3 := d2.(socketOpen := false);
    assert log + [] == log && out + [] == out;
    FiveTurns(t, kicks, Solo(Ending(s, CloseCas, ret), d, log, out), Solo(Ending(s, CloseIssue, ret), d1, log, out),
              Solo(Ending(s, CloseSocket, ret), d2, log, out), Solo(Ending(s, CloseStore, ret), d3, log, out),
              Solo(Ending(s, ClosePush, ret), d3.(state := Closed), log, out),
              Solo(Return(s, ret), ClosedAt(d, |log|), log + [Disconnect(s)], out));
  }

  /** On a closed session neither the kick nor the close does anything. */
  lemma PassAlone(t: Tid, kicks: bool, s: Sid, p: Packet, d: Sess, log: seq<Job>, out: seq<Packet>)
    requires d.state == Closed && !Known(p.id)
    ensures Alone(t, kicks, Solo(Scanning(s, ProcGate(p)), d, log, out), 3) == Solo(Scanning(s, SkipBody(p)), d, log, out)
  {
    assert log + [] == log && out + [] == out;
    var a, b := Solo(Scanning(s, ProcGate(p)), d, log, out), Solo(Sending(s, SendGate(KICK), KickThenClose(p)), d, log, out);
    var c, e := Solo(Ending(s, CloseCas, ToSkip(p)), d, log, out), Solo(Scanning(s, SkipBody(p)), d, log, out);
    ThreeTurns(t, kicks, a, b, c, e);
  }

  lemma SecondCloseAlone(t: Tid, kicks: bool, s: Sid, p: Packet, d: Sess, log: seq<Job>, out: seq<Packet>)
    requires d.state == Closed
    ensures Alone(t, kicks, Solo(Ending(s, CloseCas, ToSkip(p)), d, log, out), 1) == Solo(Scanning(s, SkipBody(p)), d, log, out)
  {
    assert log + [] == log && out + [] == out;
    var a, b := Solo(Ending(s, CloseCas, ToSkip(p)), d, log, out), Solo(Scanning(s, SkipBody(p)), d, log, out);
    assert OneTurn(t, kicks, a) == b;
    assert Alone(t, kicks, a, 1) == Alone(t, kicks, b, 0) == b;
  }

  /** What an unknown packet on an open session is answered with. */
  function KickOne(live: bool, p: Packet, kicks: bool): seq<Packet> {
    if live && !Known(p.id) && kicks then [KICK] else []
  }

  /** From the call of the kernel to the body, with the kick sent. */
  lemma KickedAlone(t: Tid, s: Sid, p: Packet, d: Sess, log: seq<Job>, out: seq<Packet>)
    requires d.state == Connected && d.socketOpen && !d.closeIssued
    ensures Alone(t, true, Solo(Sending(s, SendCall(0, KICK), KickThenClose(p)), d, log, out), 6) ==
            Solo(Scanning(s, SkipBody(p)), ClosedAt(d, |log|), log + [Disconnect(s)], out + [KICK])
  {
    KickAlone(t, s, p, d, log, out);
    CloseAlone(t, true, s, ToSkip(p), d, log, out + [KICK]);
    AloneOn(t, true, Solo(Sending(s, SendCall(0, KICK), KickThenClose(p)), d, log, out), 1, 5);
  }

  /** And without. */
  lemma UnkickedAlone(t: Tid, s: Sid, p: Packet, d: Sess, log: seq<Job>, out: seq<Packet>)
    requires d.state == Connected && !d.closeIssued
    ensures Alone(t, false, Solo(Sending(s, SendCall(0, KICK), KickThenClose(p)), d, log, out), 9) ==
            Solo(Scanning(s, SkipBody(p)), ClosedAt(d.(pendingIO := d.pendingIO - 1), |log|), log + [Disconnect(s)], out)
  {
    var a, e := Solo(Sending(s, SendCall(0, KICK), KickThenClose(p)), d, log, out), d.(pendingIO := d.pendingIO - 1);
    UndoAlone(t, s, p, d, log, out);
    CloseAlone(t, false, s, KickThenClose(p), e, log, out);
    AloneOn(t, false, a, 3, 5);
    SecondCloseAlone(t, false, s, p, ClosedAt(e, |log|), log + [Disconnect(s)], out);
    AloneOn(t, false, a, 8, 1);
  }

  lemma AnsweredAlone(t: Tid, kicks: bool, s: Sid, p: Packet, d: Sess, log: seq<Job>, out: seq<Packet>) returns (n: nat, d1: Sess)
    requires d.state == Connected && d.socketOpen && !d.closeIssued && !Known(p.id)
    ensures Alone(t, kicks, Solo(Sending(s, SendCall(0, KICK), KickThenClose(p)), d, log, out), n) ==
            Solo(Scanning(s, SkipBody(p)), d1, log + [Disconnect(s)], out + KickOne(true, p, kicks))
    ensures d1.state == Closed && d1.ring == d.ring && d1.taken == d.taken
  {
    if kicks {
      n, d1 := 6, ClosedAt(d, |log|);
      KickedAlone(t, s, p, d, log, out);
    } else {
      n, d1 := 9, ClosedAt(d.(pendingIO := d.pendingIO - 1), |log|);
      UnkickedAlone(t, s, p, d, log, out);
      assert out + [] == out;
    }
  }

  /** From ProcessPacket to the body: an unknown packet. */
  lemma RefusedAlone(t: Tid, kicks: bool, s: Sid, p: Packet, d: Sess, log: seq<Job>, out: seq<Packet>) returns (n: nat, d1: Sess)
    requires Settled(d) && !Known(p.id)
    ensures Alone(t, kicks, Solo(Scanning(s, ProcGate(p)), d, log, out), n) ==
            Solo(Scanning(s, SkipBody(p)), d1, log + HandoffOne(s, d.state == Connected, p), out + KickOne(d.state == Connected, p, kicks))
    ensures d1.state == Closed && d1.ring == d.ring && d1.taken == d.taken
  {
    if d.state == Connected {
      CallAlone(t, kicks, s, p, d, log, out);
      var m;
      m, d1 := AnsweredAlone(t, kicks, s, p, d.(pendingIO := d.pendingIO + 1), log, out);
      n := 4 + m;
      AloneOn(t, kicks, Solo(Scanning(s, ProcGate(p)), d, log, out), 4, m);
    } else {
      n, d1 := 3, d;
      PassAlone(t, kicks, s, p, d, log, out);
      assert log + [] == log && out + [] == out;
    }
  }

  lemma BetweenTwoTurns(t: Tid, kicks: bool, a: Solo, b: Solo, n: nat, c: Solo, d: Solo)
    requires OneTurn(t, kicks, a) == b && Alone(t, kicks, b, n) == c && OneTurn(t, kicks, c) == d
    ensures Alone(t, kicks, a, n + 2) == d
  {
    assert Alone(t, kicks, c, 1) == Alone(t, kicks, d, 0) == d;
    AloneOn(t, kicks, b, n, 1);
    assert Alone(t, kicks, a, n + 2) == Alone(t, kicks, b, n + 1);
  }

  /** One packet, known or not: its header and its body come off the ring, what it pushes is pushed and what it is
      answered with is sent. */
  lemma AnyPacketAlone(t: Tid, kicks: bool, s: Sid, d: Sess, log: seq<Job>, out: seq<Packet>) returns (n: nat, d1: Sess)
    requires Settled(d) && !Waiting(d.ring) && !Framing.Malformed(d.ring)
    ensures var p, live := Head(d.ring), d.state == Connected;
            Alone(t, kicks, Solo(Scanning(s, FrameScan), d, log, out), n) ==
            Solo(Scanning(s, FrameScan), d1, log + HandoffOne(s, live, p), out + KickOne(live, p, kicks))
    ensures d1.ring == d.ring[ReadU16(d.ring, 0)..] && d1.taken == d.taken + [Head(d.ring)]
    ensures Settled(d1) && d1.state == if Known(Head(d.ring).id) then d.state else Closed
    ensures Known(Head(d.ring).id) ==> d1 == d.(ring := d1.ring, taken := d1.taken)
  {
    var p := Head(d.ring);
    if Known(p.id) {
      n, d1 := 4, d.(ring := d.ring[ReadU16(d.ring, 0)..], taken := d.taken + [p]);
      PacketAlone(t, kicks, s, d, log, out);
      assert out + [] == out;
    } else {
      n, d1 := UnknownAlone(t, kicks, s, d, log, out);
    }
  }

  lemma UnknownAlone(t: Tid, kicks: bool, s: Sid, d: Sess, log: seq<Job>, out: seq<Packet>) returns (n: nat, d1: Sess)
    requires Settled(d) && !Waiting(d.ring) && !Framing.Malformed(d.ring) && !Known(Head(d.ring).id)
    ensures var p, live := Head(d.ring), d.state == Connected;
            Alone(t, kicks, Solo(Scanning(s, FrameScan), d, log, out), n) ==
            Solo(Scanning(s, FrameScan), d1, log + HandoffOne(s, live, p), out + KickOne(live, p, kicks))
    ensures d1.ring == d.ring[ReadU16(d.ring, 0)..] && d1.taken == d.taken + [Head(d.ring)] && d1.state == Closed
  {
    var p := Head(d.ring);
    var e := d.(ring := d.ring[HEADER_SIZE..], taken := d.taken + [p]);
    var m, f := RefusedAlone(t, kicks, s, p, e, log, out);
    var log1, out1 := log + HandoffOne(s, d.state == Connected, p), out + KickOne(d.state == Connected, p, kicks);
    n, d1 := m + 2, f.(ring := f.ring[|p.body|..]);
    ScanAlone(t, kicks, s, d, log, out);
    SkipAlone(t, kicks, s, p, f, log1, out1);
    BetweenTwoTurns(t, kicks, Solo(Scanning(s, FrameScan), d, log, out), Solo(Scanning(s, ProcGate(p)), e, log, out), m,
                    Solo(Scanning(s, SkipBody(p)), f, log1, out1), Solo(Scanning(s, FrameScan), d1, log1, out1));
  }

  lemma EndAlone(t: Tid, kicks: bool, s: Sid, d: Sess, log: seq<Job>, out: seq<Packet>)
    requires Waiting(d.ring) || Framing.Malformed(d.ring)
    ensures Alone(t, kicks, Solo(Scanning(s, FrameScan), d, log, out), 1) ==
            Solo(if Waiting(d.ring) then Posting(s, PostGate) else Ending(s, CloseCas, ToDestroy(true)), d, log, out)
  {
    assert log + [] == log && out + [] == out;
    var a := Solo(Scanning(s, FrameScan), d, log, out);
    assert Alone(t, kicks, a, 1) == Alone(t, kicks, OneTurn(t, kicks, a), 0) == OneTurn(t, kicks, a);
  }

  /** The kicks of a batch: one, if a packet of it is unknown, the session is open and the kernel takes it. */
  function KicksOf(live: bool, ps: seq<Packet>, kicks: bool): seq<Packet> {
    if live && !AllKnown(ps) && kicks then [KICK] else []
  }

  /** Where a batch ends: what is pushed and what is left are those of the parse, the session is closed if a
      packet was unknown, one kick was sent if it was open until then, and then the receive is posted again or, at a
      header no packet can have, the session closes. */
  ghost predicate BatchEnds(s: Sid, d: Sess, log: seq<Job>, out: seq<Packet>, kicks: bool, end: Solo) {
    var r := Parse(d.ring);
    && end.pc == (if r.bad then Ending(s, CloseCas, ToDestroy(true)) else Posting(s, PostGate))
    && end.d.ring == r.rest && end.d.taken == d.taken + r.packets
    && end.d.state == (if AllKnown(r.packets) then d.state else Closed)
    && (AllKnown(r.packets) ==> end.d == d.(ring := r.rest, taken := d.taken + r.packets))
    && end.log == log + Handoff(s, d.state == Connected, r.packets)
    && end.out == out + KicksOf(d.state == Connected, r.packets, kicks)
  }

  lemma BatchEndsAtOnce(s: Sid, d: Sess, log: seq<Job>, out: seq<Packet>, kicks: bool)
    requires Waiting(d.ring) || Framing.Malformed(d.ring)
    ensures BatchEnds(s, d, log, out, kicks,
                      Solo(if Waiting(d.ring) then Posting(s, PostGate) else Ending(s, CloseCas, ToDestroy(true)), d, log, out))
  {
    ParseNothing(d.ring);
    assert d.taken + [] == d.taken && log + [] == log && out + [] == out;
  }

  lemma BatchEndsAfter(s: Sid, d: Sess, log: seq<Job>, out: seq<Packet>, kicks: bool, d1: Sess, end: Solo)
    requires !Waiting(d.ring) && !Framing.Malformed(d.ring)
    requires d1.ring == d.ring[ReadU16(d.ring, 0)..] && d1.taken == d.taken + [Head(d.ring)]
    requires d1.state == (if Known(Head(d.ring).id) then d.state else Closed)
    requires Known(Head(d.ring).id) ==> d1 == d.(ring := d1.ring, taken := d1.taken)
    requires var p, live := Head(d.ring), d.state == Connected;
             BatchEnds(s, d1, log + HandoffOne(s, live, p), out + KickOne(live, p, kicks), kicks, end)
    ensures BatchEnds(s, d, log, out, kicks, end)
  {
    var p, tail, live := Head(d.ring), Parse(d1.ring).packets, d.state == Connected;
    ParseTake(d.ring);
    KnownTail(p, tail);
    PlusAssociates(d.taken, [p], tail);
    BatchPushes(s, live, p, tail, log);
    BatchKicks(live, p, tail, kicks, out);
  }

  lemma BatchPushes(s: Sid, live: bool, p: Packet, tail: seq<Packet>, log: seq<Job>)
    ensures log + HandoffOne(s, live, p) + Handoff(s, live && Known(p.id), tail) == log + Handoff(s, live, [p] + tail)
  {
    HandoffHead(s, live, p, tail);
    PlusAssociates(log, HandoffOne(s, live, p), Handoff(s, live && Known(p.id), tail));
  }

  lemma BatchKicks(live: bool, p: Packet, tail: seq<Packet>, kicks: bool, out: seq<Packet>)
    ensures out + KickOne(live, p, kicks) + KicksOf(live && Known(p.id), tail, kicks) == out + KicksOf(live, [p] + tail, kicks)
  {
    KnownTail(p, tail);
    PlusAssociates(out, KickOne(live, p, kicks), KicksOf(live && Known(p.id), tail, kicks));
  }

  /** A batch left alone, unknown packets included, is handed over and answered as Session.OnRecvComplete is proved to. */
  lemma {:induction false} BatchAlone(t: Tid, kicks: bool, s: Sid, d: Sess, log: seq<Job>, out: seq<Packet>) returns (n: nat)
    requires Settled(d)
    ensures BatchEnds(s, d, log, out, kicks, Alone(t, kicks, Solo(Scanning(s, FrameScan), d, log, out), n))
    decreases |d.ring|
  {
    if Waiting(d.ring) || Framing.Malformed(d.ring) {
      EndAlone(t, kicks, s, d, log, out);
      BatchEndsAtOnce(s, d, log, out, kicks);
      n := 1;
    } else {
      var m, d1 := AnyPacketAlone(t, kicks, s, d, log, out);
      var p, live := Head(d.ring), d.state == Connected;
      var log1, out1 := log + HandoffOne(s, live, p), out + KickOne(live, p, kicks);
      n := BatchAlone(t, kicks, s, d1, log1, out1);
      BatchEndsAfter(s, d, log, out, kicks, d1, Alone(t, kicks, Solo(Scanning(s, FrameScan), d1, log1, out1), n));
      AloneOn(t, kicks, Solo(Scanning(s, FrameScan), d, log, out), m, n);
      n := m + n;
    }
  }

  /** One packet of a session that another thread is closing: it is skipped. */
  lemma SkippedAlone(t: Tid, kicks: bool, s: Sid, d: Sess, log: seq<Job>, out: seq<Packet>)
    requires d.state == SessionState.Closing && !Waiting(d.ring) && !Framing.Malformed(d.ring)
    ensures Alone(t, kicks, Solo(Scanning(s, FrameScan), d, log, out), 3) ==
            Solo(Scanning(s, FrameScan), d.(ring := d.ring[ReadU16(d.ring, 0)..], taken := d.taken + [Head(d.ring)]), log, out)
  {
    var p := Head(d.ring);
    var d1 := d.(ring := d.ring[HEADER_SIZE..], taken := d.taken + [p]);
    var d2 := d1.(ring := d1.ring[|p.body|..]);
    assert d1.ring[|p.body|..] == d.ring[ReadU16(d.ring, 0)..];
    assert log + [] == log && out + [] == out;
    ScanAlone(t, kicks, s, d, log, out);
    SkipAlone(t, kicks, s, p, d1, log, out);
    ThreeTurns(t, kicks, Solo(Scanning(s, FrameScan), d, log, out), Solo(Scanning(s, ProcGate(p)), d1, log, out),
               Solo(Scanning(s, SkipBody(p)), d1, log, out), Solo(Scanning(s, FrameScan), d2, log, out));
  }

  /** While another thread is closing the session a batch is taken off the ring, and dropped. */
  ghost predicate BatchDropped(s: Sid, d: Sess, log: seq<Job>, out: seq<Packet>, end: Solo) {
    var r := Parse(d.ring);
    && end.pc == (if r.bad then Ending(s, CloseCas, ToDestroy(true)) else Posting(s, PostGate))
    && end.d == d.(ring := r.rest, taken := d.taken + r.packets) && end.log == log && end.out == out
  }

  lemma {:induction false} BatchWhileClosing(t: Tid, kicks: bool, s: Sid, d: Sess, log: seq<Job>, out: seq<Packet>) returns (n: nat)
    requires d.state == SessionState.Closing
    ensures BatchDropped(s, d, log, out, Alone(t, kicks, Solo(Scanning(s, FrameScan), d, log, out), n))
    decreases |d.ring|
  {
    if Waiting(d.ring) || Framing.Malformed(d.ring) {
      EndAlone(t, kicks, s, d, log, out);
      ParseNothing(d.ring);
      assert d.taken + [] == d.taken;
      n := 1;
    } else {
      var d1 := d.(ring := d.ring[ReadU16(d.ring, 0)..], taken := d.taken + [Head(d.ring)]);
      SkippedAlone(t, kicks, s, d, log, out);
      n := BatchWhileClosing(t, kicks, s, d1, log, out);
      ParseTake(d.ring);
      PlusAssociates(d.taken, [Head(d.ring)], Parse(d1.ring).packets);
      AloneOn(t, kicks, Solo(Scanning(s, FrameScan), d, log, out), 3, n);
      n := 3 + n;
    }
  }

  /** What a batch pushes, taken from its front. */
  lemma {:induction false} HandoffHead(s: Sid, live: bool, p: Packet, tail: seq<Packet>)
    ensures Handoff(s, live, [p] + tail) == HandoffOne(s, live, p) + Handoff(s, live && Known(p.id), tail)
  {
    if tail == [] {
      assert [p] + tail == [] + [p];
      HandoffSnoc(s, live, [], p);
    } else {
      var init, q := tail[..|tail| - 1], tail[|tail| - 1];
      HandoffHead(s, live, p, init);
      assert [p] + tail == ([p] + init) + [q];
      KnownTail(p, init);
      HandoffSnoc(s, live, [p] + init, q);
      PlusAssociates(HandoffOne(s, live, p), Handoff(s, live && Known(p.id), init), HandoffOne(s, live && AllKnown([p] + init), q));
    }
  }

  lemma KnownTail(p: Packet, tail: seq<Packet>)
    ensures AllKnown([p] + tail) <==> Known(p.id) && AllKnown(tail)
  {
    assert ([p] + tail)[0] == p;
    assert forall i :: 0 <= i < |tail| ==> ([p] + tail)[i + 1] == tail[i];
  }
}
