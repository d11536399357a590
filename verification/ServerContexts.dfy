/** Every operation in one place, and every send context allocated once, freed at most once. */
module ServerContexts {
  import opened Bytes
  import opened Framing
  import opened Protocol
  import opened Session
  import opened Server
  import opened ServerShape

  ghost predicate KernelPlaced(y: State, o: OpId) {
    o in y.kernel ==>
      && o < y.nextOp && o !in y.queue && y.kernel[o].s in y.sessions
      && (if y.kernel[o].isRecv then o !in y.contexts else o in y.contexts && y.contexts[o] == PlacedInKernel)
  }

  ghost predicate QueuePlaced(y: State, o: OpId) {
    o in y.queue ==>
      && o < y.nextOp && y.queue[o].s in y.sessions
      && (if y.queue[o].IoDone? && !y.queue[o].isRecv then o in y.contexts && y.contexts[o] == PlacedInQueue else o !in y.contexts)
  }

  ghost predicate ContextPlaced(y: State, o: OpId) {
    && y.frees[o] == (if o in y.contexts && y.contexts[o] == Freed then 1 else 0)
    && (o in y.contexts ==>
          && o < y.nextOp
          && match y.contexts[o]
             case Held(t) => t in y.threads && HasContext(y.threads[t]) && ContextOf(y.threads[t]) == o
             case PlacedInKernel => o in y.kernel && !y.kernel[o].isRecv
             case PlacedInQueue => o in y.queue && y.queue[o].IoDone? && !y.queue[o].isRecv
             case Freed => true)
  }

  ghost predicate ThreadPlaced(y: State, t: Tid) {
    t in y.threads && HasContext(y.threads[t]) ==>
      ContextOf(y.threads[t]) in y.contexts && y.contexts[ContextOf(y.threads[t])] == Held(t)
  }

  ghost predicate Placed(y: State) {
    (forall t :: ThreadPlaced(y, t)) && (forall o :: KernelPlaced(y, o) && QueuePlaced(y, o) && ContextPlaced(y, o))
  }

  /** What a step may do with a send context: allocate it, pass it along its thread, hand it to the kernel or free it. */
  predicate ContextLocal(pc: Pc, turn: Turn, next: OpId) {
    var pc1 := turn.pc;
    match turn.touch
    case NewContext => !HasContext(pc) && HasContext(pc1) && ContextOf(pc1) == next
    case StartSend(o) => HasContext(pc) && ContextOf(pc) == o && !HasContext(pc1)
    case FreeContext(o) => HasContext(pc) && ContextOf(pc) == o && !HasContext(pc1)
    case _ => HasContext(pc1) == HasContext(pc) && (HasContext(pc1) ==> ContextOf(pc1) == ContextOf(pc))
  }

  lemma ThreadsPlaced(y: State, t: Tid, s: Sid, turn: Turn)
    requires Placed(y) && t in y.threads && s in y.sessions
    requires ContextLocal(y.threads[t], turn, y.nextOp)
    ensures forall u :: ThreadPlaced(Apply(y, t, s, turn), u)
  {
    var y1 := Apply(y, t, s, turn);
    assert ThreadPlaced(y, t);
    forall u ensures ThreadPlaced(y1, u) { assert ThreadPlaced(y, u) && ContextPlaced(y, y.nextOp); }
  }

  lemma OperationsPlaced(y: State, t: Tid, s: Sid, turn: Turn, o: OpId)
    requires Placed(y) && t in y.threads && s in y.sessions
    requires ContextLocal(y.threads[t], turn, y.nextOp)
    ensures var y1 := Apply(y, t, s, turn); KernelPlaced(y1, o) && QueuePlaced(y1, o)
  {
    assert ThreadPlaced(y, t);
    assert KernelPlaced(y, o) && QueuePlaced(y, o) && ContextPlaced(y, o);
    NextIsFresh(y);
  }

  lemma ContextsPlaced(y: State, t: Tid, s: Sid, turn: Turn, o: OpId)
    requires Placed(y) && t in y.threads && s in y.sessions
    requires ContextLocal(y.threads[t], turn, y.nextOp)
    ensures ContextPlaced(Apply(y, t, s, turn), o)
  {
    assert ThreadPlaced(y, t) && ContextPlaced(y, o);
    NextIsFresh(y);
  }

  lemma PlacedKept(y: State, t: Tid, s: Sid, turn: Turn)
    requires Placed(y) && t in y.threads && s in y.sessions
    requires ContextLocal(y.threads[t], turn, y.nextOp)
    ensures Placed(Apply(y, t, s, turn))
  {
    ThreadsPlaced(y, t, s, turn);
    forall o
      ensures var y1 := Apply(y, t, s, turn); KernelPlaced(y1, o) && QueuePlaced(y1, o) && ContextPlaced(y1, o)
    {
      OperationsPlaced(y, t, s, turn, o);
      ContextsPlaced(y, t, s, turn, o);
    }
  }

  /** A thread holding a context: it is in neither the kernel nor the queue. */
  lemma HeldIsNowhereElse(y: State, t: Tid)
    requires Placed(y) && t in y.threads && HasContext(y.threads[t])
    ensures ContextOf(y.threads[t]) !in y.kernel && ContextOf(y.threads[t]) !in y.queue
  {
    var o := ContextOf(y.threads[t]);
    assert ThreadPlaced(y, t) && KernelPlaced(y, o) && QueuePlaced(y, o);
  }

  lemma NextIsFresh(y: State)
    requires Placed(y)
    ensures y.nextOp !in y.kernel && y.nextOp !in y.queue && y.nextOp !in y.contexts
  {
    assert KernelPlaced(y, y.nextOp) && QueuePlaced(y, y.nextOp) && ContextPlaced(y, y.nextOp);
  }

  lemma CompletePlaced(y: State, o: OpId, ok: bool, data: seq<byte>)
    requires Placed(y) && o in y.kernel && y.kernel[o].s in y.sessions
    ensures Placed(CompleteStep(y, o, ok, data))
  {
    var y1 := CompleteStep(y, o, ok, data);
    assert KernelPlaced(y, o);
    forall u ensures ThreadPlaced(y1, u) { assert ThreadPlaced(y, u); }
    forall p ensures KernelPlaced(y1, p) && QueuePlaced(y1, p) && ContextPlaced(y1, p) {
      assert KernelPlaced(y, p) && QueuePlaced(y, p) && ContextPlaced(y, p);
    }
  }

  lemma TakePlaced(y: State, n: nat, o: OpId)
    requires Placed(y) && Worker(n) in y.threads && y.threads[Worker(n)] == Idle && o in y.queue && y.queue[o].s in y.sessions
    ensures Placed(TakeStep(y, n, o))
  {
    var y1 := TakeStep(y, n, o);
    assert QueuePlaced(y, o);
    forall u ensures ThreadPlaced(y1, u) { assert ThreadPlaced(y, u); }
    forall p ensures KernelPlaced(y1, p) && QueuePlaced(y1, p) && ContextPlaced(y1, p) {
      assert KernelPlaced(y, p) && QueuePlaced(y, p) && ContextPlaced(y, p);
    }
  }

  /** No operation moves, and thread t holds no context before or after. */
  lemma ElsewherePlaced(y: State, y1: State, t: Tid)
    requires Placed(y) && t in y.threads && y.threads[t] == Idle
    requires t in y1.threads && y1.threads == y.threads[t := y1.threads[t]] && !HasContext(y1.threads[t])
    requires y1.kernel == y.kernel && y1.queue == y.queue && y1.contexts == y.contexts && y1.frees == y.frees && y1.nextOp == y.nextOp
    requires forall s :: s in y.sessions ==> s in y1.sessions
    ensures Placed(y1)
  {
    forall u ensures ThreadPlaced(y1, u) { assert ThreadPlaced(y, u); }
    forall p ensures KernelPlaced(y1, p) && QueuePlaced(y1, p) && ContextPlaced(y1, p) {
      assert KernelPlaced(y, p) && QueuePlaced(y, p) && ContextPlaced(y, p);
    }
  }
}
