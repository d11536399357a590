/** What every step of every routine does, as the invariants need it. */
module ServerTurns {
  import opened Bytes
  import opened Framing
  import opened Protocol
  import opened Lobby
  import opened Session
  import R = RingBuffer
  import opened Server
  import opened ServerShape
  import opened ServerBaton
  import opened ServerEnding
  import opened ServerRefs
  import opened ServerContexts
  import opened ServerDoom
  import opened ServerLog
  import opened ServerOpening
  import opened ServerWitness
  import opened ServerOrder

  /** What thread t, at pc, knows of the session it is at. */
  predicate Here(t: Tid, pc: Pc, d: Sess) {
    && pc != Idle && Shape(t, pc) && BatonHere(t, pc, d) && EndingHere(t, pc, d) && DoomHere(t, pc, d)
    && (pc.Gaming? && IsDisconnecting(pc) ==> d.ending == Processing)
  }

  /** It goes where it may and keeps the receive path with one party. */
  predicate Owned(t: Tid, pc: Pc, d: Sess, turn: Turn, next: OpId) {
    ShapeLocal(t, pc, turn) && BatonLocal(t, pc, d, turn, next)
  }

  /** It counts its references, moves its send context and deletes as it must. */
  predicate Counts(t: Tid, pc: Pc, d: Sess, turn: Turn, next: OpId) {
    RefsLocal(pc, d, turn) && ContextLocal(pc, turn, next) && DoomLocal(t, pc, d, turn)
  }

  /** It takes the disconnect on, logs jobs, speaks to whom it may, and leaves a witness. */
  predicate Tells(t: Tid, pc: Pc, d: Sess, turn: Turn, logged: nat) {
    && EndingLocal(t, pc, d, turn) && LogLocal(pc, d, turn, logged) && SpeakLocal(t, pc, turn)
    && OpeningLocal(t, pc, d, turn) && WitnessLocal(t, pc, d, turn)
  }

  /** It keeps the bytes and the packets in order. */
  predicate InOrder(pc: Pc, d: Sess, turn: Turn) {
    OrderLocal(pc, d, turn) && HandedLocal(pc, d, turn)
  }

  lemma AcceptTurn(t: Tid, s: Sid, at: AcceptAt, d: Sess, next: OpId, logged: nat)
    requires Here(t, Accepting(s, at), d)
    ensures var pc, turn := Accepting(s, at), AcceptStep(s, at, d, logged);
            Owned(t, pc, d, turn, next) && Counts(t, pc, d, turn, next) && Tells(t, pc, d, turn, logged)
  {
  }

  lemma PostOwned(t: Tid, s: Sid, at: PostRecvAt, d: Sess, fails: bool, next: OpId)
    requires Here(t, Posting(s, at), d)
    ensures var pc, turn := Posting(s, at), PostStep(t, s, at, d, fails, next); Owned(t, pc, d, turn, next)
  {
  }

  lemma PostCounts(t: Tid, s: Sid, at: PostRecvAt, d: Sess, fails: bool, next: OpId)
    requires Here(t, Posting(s, at), d)
    ensures var pc, turn := Posting(s, at), PostStep(t, s, at, d, fails, next); Counts(t, pc, d, turn, next)
  {
  }

  lemma PostTells(t: Tid, s: Sid, at: PostRecvAt, d: Sess, fails: bool, next: OpId, logged: nat)
    requires Here(t, Posting(s, at), d)
    ensures var pc, turn := Posting(s, at), PostStep(t, s, at, d, fails, next); Tells(t, pc, d, turn, logged)
  {
  }

  lemma RecvOwned(t: Tid, s: Sid, at: RecvAt, ok: bool, d: Sess, next: OpId)
    requires Here(t, Receiving(s, at, ok), d)
    ensures var pc, turn := Receiving(s, at, ok), RecvStep(s, at, ok, d); Owned(t, pc, d, turn, next)
  {
  }

  lemma RecvCounts(t: Tid, s: Sid, at: RecvAt, ok: bool, d: Sess, next: OpId)
    requires Here(t, Receiving(s, at, ok), d)
    ensures var pc, turn := Receiving(s, at, ok), RecvStep(s, at, ok, d); Counts(t, pc, d, turn, next)
  {
  }

  lemma RecvTells(t: Tid, s: Sid, at: RecvAt, ok: bool, d: Sess, logged: nat)
    requires Here(t, Receiving(s, at, ok), d)
    ensures var pc, turn := Receiving(s, at, ok), RecvStep(s, at, ok, d); Tells(t, pc, d, turn, logged)
  {
  }

  lemma FrameOwned(t: Tid, s: Sid, at: FrameAt, d: Sess, next: OpId, logged: nat)
    requires Here(t, Scanning(s, at), d)
    requires at.SkipBody? ==> |at.p.body| <= |d.ring|
    ensures var pc, turn := Scanning(s, at), FrameStep(s, at, d);
            Owned(t, pc, d, turn, next) && Tells(t, pc, d, turn, logged)
  {
  }

  lemma FrameCounts(t: Tid, s: Sid, at: FrameAt, d: Sess, next: OpId)
    requires Here(t, Scanning(s, at), d)
    requires at.SkipBody? ==> |at.p.body| <= |d.ring|
    ensures var pc, turn := Scanning(s, at), FrameStep(s, at, d); Counts(t, pc, d, turn, next)
  {
  }

  lemma SentTurn(t: Tid, s: Sid, at: SentAt, o: OpId, ok: bool, d: Sess, next: OpId, logged: nat)
    requires Here(t, Sent(s, at, o, ok), d)
    ensures var pc, turn := Sent(s, at, o, ok), SentStep(s, at, o, ok, d);
            Owned(t, pc, d, turn, next) && Counts(t, pc, d, turn, next) && Tells(t, pc, d, turn, logged)
  {
  }

  lemma CloseOwned(t: Tid, s: Sid, at: CloseAt, ret: Ret, d: Sess, next: OpId, logged: nat)
    requires Here(t, Ending(s, at, ret), d)
    ensures var pc, turn := Ending(s, at, ret), CloseStep(t, s, at, ret, d, logged); Owned(t, pc, d, turn, next)
  {
  }

  lemma CloseCounts(t: Tid, s: Sid, at: CloseAt, ret: Ret, d: Sess, next: OpId, logged: nat)
    requires Here(t, Ending(s, at, ret), d)
    ensures var pc, turn := Ending(s, at, ret), CloseStep(t, s, at, ret, d, logged); Counts(t, pc, d, turn, next)
  {
  }

  lemma CloseEnds(t: Tid, s: Sid, at: CloseAt, ret: Ret, d: Sess, logged: nat)
    requires Here(t, Ending(s, at, ret), d)
    ensures var pc, turn := Ending(s, at, ret), CloseStep(t, s, at, ret, d, logged);
            EndingLocal(t, pc, d, turn) && LogLocal(pc, d, turn, logged)
  {
  }

  lemma CloseOpens(t: Tid, s: Sid, at: CloseAt, ret: Ret, d: Sess, logged: nat)
    requires Here(t, Ending(s, at, ret), d)
    ensures var pc, turn := Ending(s, at, ret), CloseStep(t, s, at, ret, d, logged);
            OpeningLocal(t, pc, d, turn) && SpeakLocal(t, pc, turn) && WitnessLocal(t, pc, d, turn)
  {
  }

  lemma SendOwned(t: Tid, s: Sid, at: SendAt, ret: Ret, d: Sess, fails: bool, next: OpId, logged: nat)
    requires Here(t, Sending(s, at, ret), d)
    ensures var pc, turn := Sending(s, at, ret), SendStep(s, at, ret, d, fails, next);
            Owned(t, pc, d, turn, next) && Tells(t, pc, d, turn, logged)
  {
  }

  lemma SendCounts(t: Tid, s: Sid, at: SendAt, ret: Ret, d: Sess, fails: bool, next: OpId)
    requires Here(t, Sending(s, at, ret), d)
    ensures var pc, turn := Sending(s, at, ret), SendStep(s, at, ret, d, fails, next); Counts(t, pc, d, turn, next)
  {
  }

  lemma DestroyOwned(t: Tid, s: Sid, at: DestroyAt, d: Sess, next: OpId, logged: nat)
    requires Here(t, Destroying(s, at), d)
    ensures var pc, turn := Destroying(s, at), DestroyStep(t, s, at, d);
            Owned(t, pc, d, turn, next) && Tells(t, pc, d, turn, logged)
  {
  }

  lemma DestroyCounts(t: Tid, s: Sid, at: DestroyAt, d: Sess, next: OpId)
    requires Here(t, Destroying(s, at), d)
    ensures var pc, turn := Destroying(s, at), DestroyStep(t, s, at, d); Counts(t, pc, d, turn, next)
  {
  }

  lemma GameOwned(t: Tid, s: Sid, at: GameAt, d: Sess, next: OpId, logged: nat)
    requires Here(t, Gaming(s, at), d)
    ensures var pc, turn := Gaming(s, at), GameStep(s, at, d); Owned(t, pc, d, turn, next) && Tells(t, pc, d, turn, logged)
  {
  }

  lemma GameCounts(t: Tid, s: Sid, at: GameAt, d: Sess, next: OpId)
    requires Here(t, Gaming(s, at), d)
    ensures var pc, turn := Gaming(s, at), GameStep(s, at, d); Counts(t, pc, d, turn, next)
  {
  }

  lemma AcceptInOrder(t: Tid, s: Sid, at: AcceptAt, d: Sess, logged: nat)
    requires Here(t, Accepting(s, at), d) && (HasBaton(Accepting(s, at)) ==> OrderHere(Accepting(s, at), d))
    ensures var pc, turn := Accepting(s, at), AcceptStep(s, at, d, logged); InOrder(pc, d, turn)
  {
  }

  lemma PostInOrder(t: Tid, s: Sid, at: PostRecvAt, d: Sess, fails: bool, next: OpId)
    requires Here(t, Posting(s, at), d) && (HasBaton(Posting(s, at)) ==> OrderHere(Posting(s, at), d))
    ensures var pc, turn := Posting(s, at), PostStep(t, s, at, d, fails, next); InOrder(pc, d, turn)
  {
  }

  lemma SentInOrder(t: Tid, s: Sid, at: SentAt, o: OpId, ok: bool, d: Sess)
    requires Here(t, Sent(s, at, o, ok), d) && (HasBaton(Sent(s, at, o, ok)) ==> OrderHere(Sent(s, at, o, ok), d))
    ensures var pc, turn := Sent(s, at, o, ok), SentStep(s, at, o, ok, d); InOrder(pc, d, turn)
  {
  }

  lemma CloseOpenStreams(t: Tid, s: Sid, ret: Ret, d: Sess, logged: nat)
    requires Here(t, Ending(s, CloseCas, ret), d) && d.state == Connected
    requires HasBaton(Ending(s, CloseCas, ret)) ==> OrderHere(Ending(s, CloseCas, ret), d)
    ensures OrderLocal(Ending(s, CloseCas, ret), d, CloseStep(t, s, CloseCas, ret, d, logged))
  {
  }

  lemma CloseShutStreams(t: Tid, s: Sid, ret: Ret, d: Sess, logged: nat)
    requires Here(t, Ending(s, CloseCas, ret), d) && d.state != Connected
    requires HasBaton(Ending(s, CloseCas, ret)) ==> OrderHere(Ending(s, CloseCas, ret), d)
    ensures OrderLocal(Ending(s, CloseCas, ret), d, CloseStep(t, s, CloseCas, ret, d, logged))
  {
  }

  lemma CloseBeginsHands(t: Tid, s: Sid, ret: Ret, d: Sess, logged: nat)
    requires Here(t, Ending(s, CloseCas, ret), d)
    requires HasBaton(Ending(s, CloseCas, ret)) ==> OrderHere(Ending(s, CloseCas, ret), d)
    ensures HandedLocal(Ending(s, CloseCas, ret), d, CloseStep(t, s, CloseCas, ret, d, logged))
  {
  }

  lemma CloseGoesOnInOrder(t: Tid, s: Sid, at: CloseAt, ret: Ret, d: Sess, logged: nat)
    requires Here(t, Ending(s, at, ret), d) && (HasBaton(Ending(s, at, ret)) ==> OrderHere(Ending(s, at, ret), d))
    requires at in {CloseIssue, CloseSocket, CloseStore}
    ensures InOrder(Ending(s, at, ret), d, CloseStep(t, s, at, ret, d, logged))
  {
  }

  lemma CloseEndsInOrder(t: Tid, s: Sid, at: CloseAt, ret: Ret, d: Sess, logged: nat)
    requires Here(t, Ending(s, at, ret), d) && (HasBaton(Ending(s, at, ret)) ==> OrderHere(Ending(s, at, ret), d))
    requires at == ClosePush
    ensures InOrder(Ending(s, at, ret), d, CloseStep(t, s, at, ret, d, logged))
  {
  }

  lemma SendInOrder(t: Tid, s: Sid, at: SendAt, ret: Ret, d: Sess, fails: bool, next: OpId)
    requires Here(t, Sending(s, at, ret), d) && (HasBaton(Sending(s, at, ret)) ==> OrderHere(Sending(s, at, ret), d))
    ensures var pc, turn := Sending(s, at, ret), SendStep(s, at, ret, d, fails, next); InOrder(pc, d, turn)
  {
  }

  lemma DestroyInOrder(t: Tid, s: Sid, at: DestroyAt, d: Sess)
    requires Here(t, Destroying(s, at), d) && (HasBaton(Destroying(s, at)) ==> OrderHere(Destroying(s, at), d))
    ensures var pc, turn := Destroying(s, at), DestroyStep(t, s, at, d); InOrder(pc, d, turn)
  {
  }

  lemma GameInOrder(t: Tid, s: Sid, at: GameAt, d: Sess)
    requires Here(t, Gaming(s, at), d) && (HasBaton(Gaming(s, at)) ==> OrderHere(Gaming(s, at), d))
    ensures var pc, turn := Gaming(s, at), GameStep(s, at, d); InOrder(pc, d, turn)
  {
  }

  // ---- the bytes ----------------------------------------------------------------------------------

  lemma {:induction false} PrintAllMore(ps: seq<Packet>, p: Packet)
    ensures PrintAll(ps + [p]) == PrintAll(ps) + Print(p)
  {
    if ps == [] {
      assert ps + [p] == [p];
      assert PrintAll([p]) == Print(p) + PrintAll([]);
    } else {
      PrintAllMore(ps[1..], p);
      assert (ps + [p])[1..] == ps[1..] + [p];
      PlusAssociates(Print(ps[0]), PrintAll(ps[1..]), Print(p));
    }
  }

  /** A packet comes off the ring: its header leaves, its body is in progress. */
  lemma TakeStream(d: Sess, d1: Sess)
    requires Stream(d, []) && !Waiting(d.ring) && !Framing.Malformed(d.ring)
    requires d1 == d.(ring := d.ring[HEADER_SIZE..], taken := d.taken + [Head(d.ring)])
    ensures Stream(d1, [Head(d.ring)])
  {
    var p := Head(d.ring);
    PrintOfHead(d.ring);
    PrintAllMore(d.taken, p);
    var n := ReadU16(d.ring, 0);
    assert d.ring[HEADER_SIZE..][..|p.body|] == p.body;
    assert d.ring[HEADER_SIZE..][|p.body|..] == d.ring[n..];
    assert d.ring[|BodyOf([])|..] == d.ring;
    PlusAssociates(PrintAll(d.taken), Print(p), d.ring[n..]);
  }

  lemma SkipStream(d: Sess, p: Packet)
    requires Stream(d, [p])
    ensures |p.body| <= |d.ring| && Stream(d.(ring := d.ring[|p.body|..]), [])
  {
    var ring1 := d.ring[|p.body|..];
    assert ring1[|BodyOf([])|..] == ring1;
  }

  lemma FillStream(d: Sess)
    requires Stream(d, [])
    ensures Stream(d.(ring := d.ring + d.buffer, fed := d.fed + d.buffer), [])
  {
    assert d.ring[0..] == d.ring && (d.ring + d.buffer)[0..] == d.ring + d.buffer;
    PlusAssociates(PrintAll(d.taken), d.ring, d.buffer);
  }

  lemma ScanInOrder(s: Sid, d: Sess)
    requires OrderHere(Scanning(s, FrameScan), d)
    ensures InOrder(Scanning(s, FrameScan), d, FrameStep(s, FrameScan, d))
  {
    if !Waiting(d.ring) && !Framing.Malformed(d.ring) {
      var d1 := FrameStep(s, FrameScan, d).d;
      TakeStream(d, d1);
      assert d1.taken[..|d1.taken| - 1] == d.taken;
      assert OrderHere(Scanning(s, ProcGate(Head(d.ring))), d1);
    }
  }

  lemma SkipInOrder(s: Sid, p: Packet, d: Sess)
    requires OrderHere(Scanning(s, SkipBody(p)), d)
    ensures |p.body| <= |d.ring| && InOrder(Scanning(s, SkipBody(p)), d, FrameStep(s, SkipBody(p), d))
  {
    SkipStream(d, p);
  }

  lemma GateInOrder(s: Sid, p: Packet, d: Sess)
    requires OrderHere(Scanning(s, ProcGate(p)), d)
    ensures InOrder(Scanning(s, ProcGate(p)), d, FrameStep(s, ProcGate(p), d))
  {
  }

  lemma PushInOrder(s: Sid, p: Packet, d: Sess)
    requires OrderHere(Scanning(s, ProcPush(p)), d)
    ensures InOrder(Scanning(s, ProcPush(p)), d, FrameStep(s, ProcPush(p), d))
  {
    assert d.taken[..|d.taken| - 1] + [p] == d.taken;
  }

  lemma FrameInOrder(t: Tid, s: Sid, at: FrameAt, d: Sess)
    requires Here(t, Scanning(s, at), d) && OrderHere(Scanning(s, at), d)
    ensures at.SkipBody? ==> |at.p.body| <= |d.ring|
    ensures InOrder(Scanning(s, at), d, FrameStep(s, at, d))
  {
    match at
    case FrameScan => ScanInOrder(s, d);
    case ProcGate(p) => GateInOrder(s, p, d);
    case ProcPush(p) => PushInOrder(s, p, d);
    case SkipBody(p) => SkipInOrder(s, p, d);
  }

  /** What is left of a batch and a full receive fit in the ring: the overflow branch is never taken. */
  lemma NeverOverflows(s: Sid, d: Sess, ok: bool)
    requires OrderHere(Receiving(s, RecvFill, ok), d)
    ensures |d.ring| < MAX_PACKET_SIZE && |d.ring| + |d.buffer| < R.RING_SIZE
    ensures RecvStep(s, RecvFill, ok, d).pc == Scanning(s, FrameScan)
  {
    WaitingIsShort(d.ring);
  }

  lemma RecvInOrder(t: Tid, s: Sid, at: RecvAt, ok: bool, d: Sess)
    requires Here(t, Receiving(s, at, ok), d) && OrderHere(Receiving(s, at, ok), d)
    ensures InOrder(Receiving(s, at, ok), d, RecvStep(s, at, ok, d))
  {
    if at == RecvFill {
      NeverOverflows(s, d, ok);
      FillStream(d);
    }
  }
}
