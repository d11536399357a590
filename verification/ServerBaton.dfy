/** One party at a time owns the receive path of a session, and an open session always has such a party. */
module ServerBaton {
  import opened Bytes
  import opened Framing
  import opened Protocol
  import opened Session
  import opened Server
  import opened ServerShape

  /** What a thread knows of the receive path of the session it is at. */
  predicate BatonHere(t: Tid, pc: Pc, d: Sess) {
    HasBaton(pc) ==> d.baton == InThread(t) && d.recvPosted == IsPosted(pc)
  }

  ghost predicate ThreadBaton(y: State, t: Tid) {
    t in y.threads && HasBaton(y.threads[t]) ==>
      y.threads[t].s in y.sessions && BatonHere(t, y.threads[t], y.sessions[y.threads[t].s])
  }

  ghost predicate SessionBaton(y: State, s: Sid) {
    s in y.sessions ==>
      var d := y.sessions[s];
      match d.baton
      case Nobody => !d.recvPosted && d.state != Connected
      case InThread(t) => t in y.threads && HasBaton(y.threads[t]) && y.threads[t].s == s
      case InKernel(o) => o in y.kernel && y.kernel[o] == Op(s, true) && d.recvPosted
      case InQueue(o) => o in y.queue && y.queue[o].IoDone? && y.queue[o].isRecv && y.queue[o].s == s && d.recvPosted
  }

  ghost predicate KernelBaton(y: State, o: OpId) {
    o in y.kernel && y.kernel[o].isRecv ==> y.kernel[o].s in y.sessions && y.sessions[y.kernel[o].s].baton == InKernel(o)
  }

  ghost predicate QueueBaton(y: State, o: OpId) {
    o in y.queue && y.queue[o].IoDone? && y.queue[o].isRecv ==>
      y.queue[o].s in y.sessions && y.sessions[y.queue[o].s].baton == InQueue(o)
  }

  ghost predicate Batons(y: State) {
    && (forall t :: ThreadBaton(y, t))
    && (forall s :: SessionBaton(y, s))
    && (forall o :: KernelBaton(y, o))
    && (forall o :: QueueBaton(y, o))
  }

  /** What a step may do to the receive path: pass it along its thread, hand it to the kernel, or, on a
      session no longer open, let it go. */
  predicate BatonLocal(t: Tid, pc: Pc, d: Sess, turn: Turn, next: OpId) {
    var pc1, d1 := turn.pc, turn.d;
    && pc != Idle
    && (HasBaton(pc1) ==> HasBaton(pc) && pc1.s == pc.s)
    && (turn.touch.StartRecv? ==> HasBaton(pc) && !HasBaton(pc1))
    && (d.state != Connected ==> d1.state != Connected)
    && if !HasBaton(pc) then d1.baton == d.baton && d1.recvPosted == d.recvPosted
       else if turn.touch.StartRecv? then d1.baton == InKernel(next) && d1.recvPosted
       else if HasBaton(pc1) then BatonHere(t, pc1, d1)
       else d1.baton == Nobody && !d1.recvPosted && d1.state != Connected
  }

  lemma BatonsKept(y: State, t: Tid, s: Sid, turn: Turn)
    requires Batons(y) && t in y.threads && y.threads[t] != Idle && y.threads[t].s == s && s in y.sessions
    requires BatonLocal(t, y.threads[t], y.sessions[s], turn, y.nextOp)
    requires y.nextOp !in y.kernel && y.nextOp !in y.queue
    requires turn.touch.StartSend? ==> turn.touch.o !in y.kernel
    ensures Batons(Apply(y, t, s, turn))
  {
    var y1 := Apply(y, t, s, turn);
    assert ThreadBaton(y, t) && SessionBaton(y, s);
    forall u ensures ThreadBaton(y1, u) { assert ThreadBaton(y, u); }
    forall r ensures SessionBaton(y1, r) { assert SessionBaton(y, r); }
    forall o ensures KernelBaton(y1, o) && QueueBaton(y1, o) { assert KernelBaton(y, o) && QueueBaton(y, o); }
  }

  lemma AcceptBatons(y: State, s: Sid)
    requires Batons(y) && Acceptor in y.threads && y.threads[Acceptor] == Idle && s !in y.sessions
    ensures Batons(AcceptNew(y, s))
  {
    var y1 := AcceptNew(y, s);
    forall u ensures ThreadBaton(y1, u) { assert ThreadBaton(y, u); }
    forall r ensures SessionBaton(y1, r) { assert SessionBaton(y, r); }
    forall p ensures KernelBaton(y1, p) && QueueBaton(y1, p) { assert KernelBaton(y, p) && QueueBaton(y, p); }
  }

  lemma CompleteBatons(y: State, o: OpId, ok: bool, data: seq<byte>)
    requires Batons(y) && o in y.kernel && y.kernel[o].s in y.sessions && o !in y.queue
    ensures Batons(CompleteStep(y, o, ok, data))
  {
    var y1 := CompleteStep(y, o, ok, data);
    assert KernelBaton(y, o);
    forall u ensures ThreadBaton(y1, u) { assert ThreadBaton(y, u); }
    forall r ensures SessionBaton(y1, r) { assert SessionBaton(y, r); }
    forall p ensures KernelBaton(y1, p) && QueueBaton(y1, p) { assert KernelBaton(y, p) && QueueBaton(y, p); }
  }

  lemma TakeBatons(y: State, n: nat, o: OpId)
    requires Batons(y) && Worker(n) in y.threads && y.threads[Worker(n)] == Idle && o in y.queue && y.queue[o].s in y.sessions
    ensures Batons(TakeStep(y, n, o))
  {
    var y1 := TakeStep(y, n, o);
    assert QueueBaton(y, o) && SessionBaton(y, y.queue[o].s);
    forall u ensures ThreadBaton(y1, u) { assert ThreadBaton(y, u); }
    forall r ensures SessionBaton(y1, r) { assert SessionBaton(y, r); }
    forall p ensures KernelBaton(y1, p) && QueueBaton(y1, p) { assert KernelBaton(y, p) && QueueBaton(y, p); }
  }

  /** The game thread takes a job up: no baton moves. */
  lemma PopBatons(y: State, y1: State, s: Sid)
    requires Batons(y) && GameThread in y.threads && y.threads[GameThread] == Idle
    requires GameThread in y1.threads && y1.threads == y.threads[GameThread := y1.threads[GameThread]]
    requires !HasBaton(y1.threads[GameThread])
    requires y1.kernel == y.kernel && y1.queue == y.queue
    requires y1.sessions == y.sessions || (s in y.sessions && y1.sessions == y.sessions[s := y.sessions[s].(ending := Processing)])
    ensures Batons(y1)
  {
    forall u ensures ThreadBaton(y1, u) { assert ThreadBaton(y, u); }
    forall r ensures SessionBaton(y1, r) { assert SessionBaton(y, r); }
    forall p ensures KernelBaton(y1, p) && QueueBaton(y1, p) { assert KernelBaton(y, p) && QueueBaton(y, p); }
  }
}
