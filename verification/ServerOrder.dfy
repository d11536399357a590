/**
 The stream of each session: what was received, what went through the ring, what was taken off it as
 packets and what was handed to the game thread.
 */
module ServerOrder {
  import opened Bytes
  import opened Framing
  import opened Protocol
  import opened Session
  import opened Server
  import opened ServerShape
  import opened ServerBaton

  /** The packet being processed: its header is off the ring, its body is still there. */
  function MidPacket(pc: Pc): seq<Packet> {
    match pc
    case Scanning(_, at) => if at.FrameScan? then [] else [at.p]
    case Ending(_, _, ret) => if InLoop(ret) then [ret.p] else []
    case Sending(_, _, ret) => if InLoop(ret) then [ret.p] else []
    case _ => []
  }

  /** The packet being processed has not been handed over: not yet, or never. */
  predicate Undecided(pc: Pc) {
    match pc
    case Scanning(_, at) => at.ProcGate? || at.ProcPush?
    case Ending(_, _, ret) => InLoop(ret)
    case Sending(_, _, ret) => InLoop(ret)
    case _ => false
  }

  function BodyOf(mid: seq<Packet>): seq<byte> {
    if mid == [] then [] else mid[0].body
  }

  predicate EndsWith(ps: seq<Packet>, mid: seq<Packet>) {
    mid == [] || (ps != [] && ps[|ps| - 1] == mid[0])
  }

  /** The bytes fed are the packets taken and what the ring still holds, less the body in progress. */
  predicate Stream(d: Sess, mid: seq<Packet>) {
    && |d.buffer| <= BUFFER_SIZE
    && AllValid(d.taken) && EndsWith(d.taken, mid)
    && BodyOf(mid) <= d.ring && d.fed == PrintAll(d.taken) + d.ring[|BodyOf(mid)|..]
  }

  predicate OrderHere(pc: Pc, d: Sess) {
    && Stream(d, MidPacket(pc))
    && match pc
       case Accepting(_, _) => Waiting(d.ring) && d.wire == d.fed
       case Posting(_, _) => Waiting(d.ring) && d.wire == d.fed
       case Receiving(_, at, _) => Waiting(d.ring) && d.wire == d.fed + d.buffer && (at in {RecvGate, RecvFill} ==> d.buffer != [])
       case Ending(_, _, ret) => if EndsReceive(ret) then d.fed <= d.wire else d.wire == d.fed
       case _ => d.wire == d.fed
  }

  /** The stream of a session whose receive path, if a thread has it, is held at pc. */
  predicate StreamOk(pc: Pc, d: Sess) {
    match d.baton
    case Nobody => Stream(d, []) && d.fed <= d.wire
    case InKernel(_) => Stream(d, []) && Waiting(d.ring) && d.wire == d.fed
    case InQueue(_) => Stream(d, []) && Waiting(d.ring) && d.wire == d.fed + d.buffer
    case InThread(_) => OrderHere(pc, d)
  }

  /** Where the holder of the receive path is, if a thread holds it. */
  function Holder(y: State, d: Sess): Pc {
    if d.baton.InThread? && d.baton.t in y.threads then y.threads[d.baton.t] else Idle
  }

  ghost predicate SessionOrder(y: State, s: Sid) {
    s in y.sessions ==> StreamOk(Holder(y, y.sessions[s]), y.sessions[s])
  }

  ghost predicate Ordered(y: State) {
    forall s :: SessionOrder(y, s)
  }

  predicate SameStream(d: Sess, d1: Sess) {
    d1.buffer == d.buffer && d1.ring == d.ring && d1.taken == d.taken && d1.fed == d.fed && d1.wire == d.wire
  }

  /** Only the holder of the baton moves bytes, and keeps them in order. */
  predicate OrderLocal(pc: Pc, d: Sess, turn: Turn) {
    && pc != Idle
    && if !HasBaton(pc) then SameStream(d, turn.d)
       else OrderHere(pc, d) ==>
            if HasBaton(turn.pc) then OrderHere(turn.pc, turn.d)
            else if turn.touch.StartRecv? then Stream(turn.d, []) && Waiting(turn.d.ring) && turn.d.wire == turn.d.fed
            else Stream(turn.d, []) && turn.d.fed <= turn.d.wire
  }

  lemma SameStreamOk(pc: Pc, d: Sess, d1: Sess)
    requires StreamOk(pc, d) && SameStream(d, d1) && d1.baton == d.baton
    ensures StreamOk(pc, d1)
  {
  }

  lemma HolderStreamOk(t: Tid, pc: Pc, d: Sess, turn: Turn, next: OpId)
    requires BatonLocal(t, pc, d, turn, next) && OrderLocal(pc, d, turn) && HasBaton(pc) && OrderHere(pc, d)
    ensures StreamOk(turn.pc, turn.d)
  {
  }

  /** The holder of any other session's receive path is where it was. */
  lemma OtherHolder(y: State, t: Tid, s: Sid, turn: Turn, r: Sid)
    requires Batons(y) && t in y.threads && y.threads[t] != Idle && y.threads[t].s == s && s in y.sessions && r in y.sessions
    requires r != s || !HasBaton(y.threads[t])
    ensures Holder(Apply(y, t, s, turn), y.sessions[r]) == Holder(y, y.sessions[r])
  {
    assert SessionBaton(y, r);
  }

  lemma OrderedKept(y: State, t: Tid, s: Sid, turn: Turn)
    requires Ordered(y) && Batons(y) && t in y.threads && y.threads[t] != Idle && y.threads[t].s == s && s in y.sessions
    requires BatonLocal(t, y.threads[t], y.sessions[s], turn, y.nextOp) && OrderLocal(y.threads[t], y.sessions[s], turn)
    ensures Ordered(Apply(y, t, s, turn))
  {
    var y1 := Apply(y, t, s, turn);
    forall r
      ensures SessionOrder(y1, r)
    {
      assert SessionOrder(y, r) && ThreadBaton(y, t);
      if r == s && HasBaton(y.threads[t]) {
        HolderStreamOk(t, y.threads[t], y.sessions[s], turn, y.nextOp);
      } else if r in y.sessions {
        OtherHolder(y, t, s, turn, r);
        if r == s {
          SameStreamOk(Holder(y, y.sessions[s]), y.sessions[s], turn.d);
        }
      }
    }
  }

  // ---- what is handed over ------------------------------------------------------------------------

  /** The packets of s in the job log, in order. */
  function Handed(log: seq<Job>, s: Sid): seq<Packet> {
    if log == [] then []
    else
      var last := log[|log| - 1];
      Handed(log[..|log| - 1], s) + if last.Deliver? && last.s == s then [last.packet] else []
  }

  /** a can be had from b by leaving packets out. */
  predicate Subsequence(a: seq<Packet>, b: seq<Packet>) {
    a == [] ||
    (b != [] && (Subsequence(a, b[..|b| - 1])
                 || (a[|a| - 1] == b[|b| - 1] && Subsequence(a[..|a| - 1], b[..|b| - 1]))))
  }

  lemma SubsequenceMore(a: seq<Packet>, b: seq<Packet>, p: Packet)
    requires Subsequence(a, b)
    ensures Subsequence(a, b + [p]) && Subsequence(a + [p], b + [p])
  {
    assert (b + [p])[..|b|] == b && (a + [p])[..|a|] == a;
  }

  lemma HandedMore(log: seq<Job>, job: Job, s: Sid)
    ensures Handed(log + [job], s) == Handed(log, s) + if job.Deliver? && job.s == s then [job.packet] else []
  {
    assert (log + [job])[..|log|] == log;
  }

  /** The packets whose fate is decided: handed over or skipped. */
  function Decided(pc: Pc, taken: seq<Packet>): seq<Packet> {
    if Undecided(pc) && taken != [] then taken[..|taken| - 1] else taken
  }

  function DecidedIn(y: State, d: Sess): seq<Packet> {
    Decided(Holder(y, d), d.taken)
  }

  /** In order, and all of them as long as the session is open. */
  predicate HandedOk(handed: seq<Packet>, decided: seq<Packet>, open: bool) {
    Subsequence(handed, decided) && (open ==> handed == decided)
  }

  ghost predicate SessionHanded(y: State, s: Sid) {
    s in y.sessions ==> HandedOk(Handed(y.log, s), DecidedIn(y, y.sessions[s]), y.sessions[s].state == Connected)
  }

  ghost predicate HandedOver(y: State) {
    && (forall s :: SessionHanded(y, s))
    && (forall i :: 0 <= i < |y.log| ==> y.log[i].s in y.sessions)
  }

  /** One packet more is decided by handing it over or, the session no longer open, by skipping it. */
  predicate HandedLocal(pc: Pc, d: Sess, turn: Turn) {
    var was, now := Decided(pc, d.taken), Decided(turn.pc, turn.d.taken);
    && pc != Idle
    && (turn.touch.Push? ==> turn.touch.job.s == pc.s)
    && turn.d.wire == d.wire
    && (turn.d.state == Connected ==> d.state == Connected)
    && (turn.touch.Push? && turn.touch.job.Deliver? ==> HasBaton(pc))
    && (HasBaton(pc) ==>
          if turn.touch.Push? && turn.touch.job.Deliver? then now == was + [turn.touch.job.packet]
          else now == was || (turn.d.state != Connected && now != [] && now[..|now| - 1] == was))
    && (!HasBaton(pc) ==> turn.d.taken == d.taken)
    && (!HasBaton(turn.pc) ==> !Undecided(turn.pc))
  }

  lemma HandedByHolder(handed: seq<Packet>, handed1: seq<Packet>, was: seq<Packet>, now: seq<Packet>, open: bool, open1: bool)
    requires HandedOk(handed, was, open) && (open1 ==> open)
    requires (now == was && handed1 == handed)
             || (now != [] && now[..|now| - 1] == was && (handed1 == handed + [now[|now| - 1]] || (handed1 == handed && !open1)))
    ensures HandedOk(handed1, now, open1)
  {
    if now != was {
      SubsequenceMore(handed, was, now[|now| - 1]);
      assert was + [now[|now| - 1]] == now;
    }
  }

  predicate DeliversFor(touch: Touch, s: Sid) {
    touch.Push? && touch.job.Deliver? && touch.job.s == s
  }

  lemma HandedAfter(log: seq<Job>, touch: Touch, r: Sid)
    ensures Handed(log + JobsOf(touch), r) == Handed(log, r) + if DeliversFor(touch, r) then [touch.job.packet] else []
  {
    if touch.Push? {
      HandedMore(log, touch.job, r);
    } else {
      assert log + JobsOf(touch) == log;
    }
  }

  lemma HandedHere(y: State, t: Tid, s: Sid, turn: Turn)
    requires SessionHanded(y, s) && ThreadBaton(y, t) && t in y.threads && y.threads[t] != Idle && y.threads[t].s == s && s in y.sessions
    requires BatonLocal(t, y.threads[t], y.sessions[s], turn, y.nextOp) && HandedLocal(y.threads[t], y.sessions[s], turn)
    requires HasBaton(y.threads[t])
    ensures SessionHanded(Apply(y, t, s, turn), s)
  {
    var y1 := Apply(y, t, s, turn);
    HandedAfter(y.log, turn.touch, s);
    assert DecidedIn(y1, turn.d) == Decided(turn.pc, turn.d.taken);
    HandedByHolder(Handed(y.log, s), Handed(y1.log, s), Decided(y.threads[t], y.sessions[s].taken),
                   Decided(turn.pc, turn.d.taken), y.sessions[s].state == Connected, turn.d.state == Connected);
  }

  lemma HandedElsewhere(y: State, t: Tid, s: Sid, turn: Turn, r: Sid)
    requires SessionHanded(y, r) && Batons(y) && t in y.threads && y.threads[t] != Idle && y.threads[t].s == s && s in y.sessions
    requires BatonLocal(t, y.threads[t], y.sessions[s], turn, y.nextOp) && HandedLocal(y.threads[t], y.sessions[s], turn)
    requires r != s || !HasBaton(y.threads[t])
    ensures SessionHanded(Apply(y, t, s, turn), r)
  {
    var y1 := Apply(y, t, s, turn);
    HandedAfter(y.log, turn.touch, r);
    if r in y.sessions {
      OtherHolder(y, t, s, turn, r);
      assert DecidedIn(y1, y1.sessions[r]) == DecidedIn(y, y.sessions[r]);
      assert Handed(y1.log, r) == Handed(y.log, r);
    }
  }

  lemma HandedKept(y: State, t: Tid, s: Sid, turn: Turn)
    requires HandedOver(y) && Batons(y) && t in y.threads && y.threads[t] != Idle && y.threads[t].s == s && s in y.sessions
    requires BatonLocal(t, y.threads[t], y.sessions[s], turn, y.nextOp) && HandedLocal(y.threads[t], y.sessions[s], turn)
    ensures HandedOver(Apply(y, t, s, turn))
  {
    forall r
      ensures SessionHanded(Apply(y, t, s, turn), r)
    {
      assert SessionHanded(y, r) && ThreadBaton(y, t);
      if r == s && HasBaton(y.threads[t]) {
        HandedHere(y, t, s, turn);
      } else {
        HandedElsewhere(y, t, s, turn, r);
      }
    }
  }

  // ---- the other steps ----------------------------------------------------------------------------

  lemma AcceptOrdered(y: State, s: Sid)
    requires Ordered(y) && Batons(y) && Acceptor in y.threads && y.threads[Acceptor] == Idle && s !in y.sessions
    ensures Ordered(AcceptNew(y, s))
  {
    var y1 := AcceptNew(y, s);
    forall r ensures SessionOrder(y1, r) { assert SessionOrder(y, r) && SessionBaton(y, r); }
  }

  lemma HandedNone(log: seq<Job>, s: Sid)
    requires forall i :: 0 <= i < |log| ==> log[i].s != s
    ensures Handed(log, s) == []
  {
  }

  lemma AcceptHanded(y: State, s: Sid)
    requires HandedOver(y) && Batons(y) && Acceptor in y.threads && y.threads[Acceptor] == Idle && s !in y.sessions
    ensures HandedOver(AcceptNew(y, s))
  {
    var y1 := AcceptNew(y, s);
    HandedNone(y.log, s);
    forall r
      ensures SessionHanded(y1, r)
    {
      assert SessionHanded(y, r) && SessionBaton(y, r);
      if r in y.sessions {
        assert Holder(y1, y.sessions[r]) == Holder(y, y.sessions[r]);
      }
    }
  }

  lemma CompleteOrdered(y: State, o: OpId, ok: bool, data: seq<byte>)
    requires Ordered(y) && Batons(y) && o in y.kernel && y.kernel[o].s in y.sessions && |data| <= BUFFER_SIZE
    ensures Ordered(CompleteStep(y, o, ok, data))
  {
    var y1 := CompleteStep(y, o, ok, data);
    assert KernelBaton(y, o);
    forall r ensures SessionOrder(y1, r) { assert SessionOrder(y, r); }
  }

  lemma CompleteHanded(y: State, o: OpId, ok: bool, data: seq<byte>)
    requires HandedOver(y) && Batons(y) && o in y.kernel && y.kernel[o].s in y.sessions
    ensures HandedOver(CompleteStep(y, o, ok, data))
  {
    var y1 := CompleteStep(y, o, ok, data);
    assert KernelBaton(y, o);
    forall r
      ensures SessionHanded(y1, r)
    {
      assert SessionHanded(y, r);
      if r in y.sessions {
        assert DecidedIn(y1, y1.sessions[r]) == DecidedIn(y, y.sessions[r]);
      }
    }
  }

  lemma TakeOrdered(y: State, n: nat, o: OpId)
    requires Ordered(y) && Batons(y) && Worker(n) in y.threads && y.threads[Worker(n)] == Idle
    requires o in y.queue && y.queue[o].s in y.sessions
    ensures Ordered(TakeStep(y, n, o))
  {
    var y1 := TakeStep(y, n, o);
    assert QueueBaton(y, o);
    forall r ensures SessionOrder(y1, r) { assert SessionOrder(y, r) && SessionBaton(y, r); }
  }

  lemma TakeHanded(y: State, n: nat, o: OpId)
    requires HandedOver(y) && Batons(y) && Worker(n) in y.threads && y.threads[Worker(n)] == Idle
    requires o in y.queue && y.queue[o].s in y.sessions
    ensures HandedOver(TakeStep(y, n, o))
  {
    var y1 := TakeStep(y, n, o);
    assert QueueBaton(y, o);
    forall r
      ensures SessionHanded(y1, r)
    {
      assert SessionHanded(y, r) && SessionBaton(y, r);
      if r in y.sessions {
        assert DecidedIn(y1, y1.sessions[r]) == DecidedIn(y, y.sessions[r]);
      }
    }
  }

  /** The game thread takes a job up: no byte moves. */
  lemma PopOrdered(y: State, y1: State, s: Sid)
    requires Ordered(y) && HandedOver(y) && Batons(y) && GameThread in y.threads && y.threads[GameThread] == Idle && s in y.sessions
    requires GameThread in y1.threads && y1.threads == y.threads[GameThread := y1.threads[GameThread]]
    requires s in y1.sessions && y1.sessions == y.sessions[s := y1.sessions[s]] && y1.log == y.log
    requires SameStream(y.sessions[s], y1.sessions[s]) && y1.sessions[s].baton == y.sessions[s].baton
    requires y1.sessions[s].state == y.sessions[s].state
    ensures Ordered(y1) && HandedOver(y1)
  {
    forall r
      ensures SessionOrder(y1, r) && SessionHanded(y1, r)
    {
      assert SessionOrder(y, r) && SessionHanded(y, r) && SessionBaton(y, r);
      if r in y.sessions {
        assert Holder(y1, y1.sessions[r]) == Holder(y, y.sessions[r]);
        SameStreamOk(Holder(y, y.sessions[r]), y.sessions[r], y1.sessions[r]);
      }
    }
  }
}
