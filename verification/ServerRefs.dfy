/** pendingIO counts exactly what can still touch a session's buffers, and the threads about to. */
module ServerRefs {
  import opened Bytes
  import opened Framing
  import opened Protocol
  import opened Session
  import opened Server
  import opened ServerShape

  function KernelOps(kernel: map<OpId, Op>, s: Sid): set<OpId> {
    set o | o in kernel && kernel[o].s == s
  }

  /** I/O completions queued and not yet dequeued. */
  function QueuedIo(queue: map<OpId, Completion>, s: Sid): set<OpId> {
    set o | o in queue && queue[o].IoDone? && queue[o].s == s
  }

  predicate RefersTo(pc: Pc, s: Sid) {
    HasRef(pc) && pc.s == s
  }

  function Holders(threads: map<Tid, Pc>, s: Sid): set<Tid> {
    set t | t in threads && RefersTo(threads[t], s)
  }

  ghost predicate Counted(y: State, s: Sid) {
    s in y.sessions ==>
      y.sessions[s].pendingIO == |KernelOps(y.kernel, s)| + |QueuedIo(y.queue, s)| + |Holders(y.threads, s)|
  }

  ghost predicate Accounted(y: State) {
    forall s :: Counted(y, s)
  }

  predicate Starts(touch: Touch) {
    touch.StartRecv? || touch.StartSend?
  }

  function One(b: bool): int {
    if b then 1 else 0
  }

  /** A step counts up with its fetch_add, down with its fetch_sub, and hands its unit to the kernel. */
  predicate RefsLocal(pc: Pc, d: Sess, turn: Turn) {
    && turn.d.pendingIO == d.pendingIO + One(HasRef(turn.pc)) - One(HasRef(pc)) + One(Starts(turn.touch))
    && pc != Idle
    && (HasRef(turn.pc) ==> turn.pc.s == pc.s)
  }

  // ---- counting -----------------------------------------------------------------------------------

  lemma OneMore<T>(a: set<T>, b: set<T>, x: T)
    requires x !in a && forall e :: e in b <==> e in a || e == x
    ensures |b| == |a| + 1
  {
    assert b == a + {x};
  }

  lemma KernelOpsAdd(kernel: map<OpId, Op>, o: OpId, op: Op, s: Sid)
    requires o !in kernel
    ensures |KernelOps(kernel[o := op], s)| == |KernelOps(kernel, s)| + One(op.s == s)
  {
    if op.s == s {
      OneMore(KernelOps(kernel, s), KernelOps(kernel[o := op], s), o);
    } else {
      assert KernelOps(kernel[o := op], s) == KernelOps(kernel, s);
    }
  }

  lemma KernelOpsDrop(kernel: map<OpId, Op>, o: OpId, s: Sid)
    requires o in kernel
    ensures |KernelOps(kernel, s)| == |KernelOps(kernel - {o}, s)| + One(kernel[o].s == s)
  {
    assert (kernel - {o})[o := kernel[o]] == kernel;
    KernelOpsAdd(kernel - {o}, o, kernel[o], s);
  }

  lemma QueuedIoAdd(queue: map<OpId, Completion>, o: OpId, c: Completion, s: Sid)
    requires o !in queue
    ensures |QueuedIo(queue[o := c], s)| == |QueuedIo(queue, s)| + One(c.IoDone? && c.s == s)
  {
    if c.IoDone? && c.s == s {
      OneMore(QueuedIo(queue, s), QueuedIo(queue[o := c], s), o);
    } else {
      assert QueuedIo(queue[o := c], s) == QueuedIo(queue, s);
    }
  }

  lemma QueuedIoDrop(queue: map<OpId, Completion>, o: OpId, s: Sid)
    requires o in queue
    ensures |QueuedIo(queue, s)| == |QueuedIo(queue - {o}, s)| + One(queue[o].IoDone? && queue[o].s == s)
  {
    assert (queue - {o})[o := queue[o]] == queue;
    QueuedIoAdd(queue - {o}, o, queue[o], s);
  }

  lemma HoldersMove(threads: map<Tid, Pc>, t: Tid, pc: Pc, s: Sid)
    requires t in threads
    ensures |Holders(threads[t := pc], s)| == |Holders(threads, s)| + One(RefersTo(pc, s)) - One(RefersTo(threads[t], s))
  {
    var now, was := Holders(threads[t := pc], s), Holders(threads, s);
    if RefersTo(pc, s) && !RefersTo(threads[t], s) {
      OneMore(was, now, t);
    } else if !RefersTo(pc, s) && RefersTo(threads[t], s) {
      OneMore(now, was, t);
    } else {
      assert now == was;
    }
  }

  // ---- the steps ----------------------------------------------------------------------------------

  lemma AccountedKept(y: State, t: Tid, s: Sid, turn: Turn)
    requires Accounted(y) && t in y.threads && y.threads[t] != Idle && y.threads[t].s == s && s in y.sessions
    requires RefsLocal(y.threads[t], y.sessions[s], turn)
    requires y.nextOp !in y.kernel && y.nextOp !in y.queue && (turn.touch.StartSend? ==> turn.touch.o !in y.kernel)
    ensures Accounted(Apply(y, t, s, turn))
  {
    var y1 := Apply(y, t, s, turn);
    forall r
      ensures Counted(y1, r)
    {
      assert Counted(y, r);
      if turn.touch.StartRecv? {
        KernelOpsAdd(y.kernel, y.nextOp, Op(s, true), r);
      } else if turn.touch.StartSend? {
        KernelOpsAdd(y.kernel, turn.touch.o, Op(s, false), r);
      } else if turn.touch.Wake? {
        QueuedIoAdd(y.queue, y.nextOp, Cleanup(s), r);
      }
      HoldersMove(y.threads, t, turn.pc, r);
    }
  }

  lemma CompleteAccounted(y: State, o: OpId, ok: bool, data: seq<byte>)
    requires Accounted(y) && o in y.kernel && y.kernel[o].s in y.sessions && o !in y.queue
    ensures Accounted(CompleteStep(y, o, ok, data))
  {
    var y1 := CompleteStep(y, o, ok, data);
    forall r
      ensures Counted(y1, r)
    {
      assert Counted(y, r);
      KernelOpsDrop(y.kernel, o, r);
      QueuedIoAdd(y.queue, o, y1.queue[o], r);
    }
  }

  lemma TakeAccounted(y: State, n: nat, o: OpId)
    requires Accounted(y) && Worker(n) in y.threads && y.threads[Worker(n)] == Idle && o in y.queue && y.queue[o].s in y.sessions
    ensures Accounted(TakeStep(y, n, o))
  {
    var y1 := TakeStep(y, n, o);
    forall r
      ensures Counted(y1, r)
    {
      assert Counted(y, r);
      QueuedIoDrop(y.queue, o, r);
      HoldersMove(y.threads, Worker(n), y1.threads[Worker(n)], r);
    }
  }

  /** A new session, or a thread that takes a job up: nothing refers to more or less. */
  lemma ElsewhereAccounted(y: State, y1: State, t: Tid)
    requires Accounted(y) && t in y.threads && y.threads[t] == Idle
    requires t in y1.threads && y1.threads == y.threads[t := y1.threads[t]] && !HasRef(y1.threads[t])
    requires y1.kernel == y.kernel && y1.queue == y.queue
    requires forall s :: s in y.sessions ==> s in y1.sessions && y1.sessions[s].pendingIO == y.sessions[s].pendingIO
    requires forall s :: s in y1.sessions && s !in y.sessions ==>
               y1.sessions[s].pendingIO == 0 && KernelOps(y.kernel, s) == {} && QueuedIo(y.queue, s) == {} && Holders(y.threads, s) == {}
    ensures Accounted(y1)
  {
    forall r
      ensures Counted(y1, r)
    {
      assert Counted(y, r);
      HoldersMove(y.threads, t, y1.threads[t], r);
    }
  }

  /** Nothing pending: nothing in the kernel, nothing queued, no thread holding a reference. */
  lemma NothingPending(y: State, s: Sid)
    requires Accounted(y) && s in y.sessions && y.sessions[s].pendingIO == 0
    ensures forall o :: o in y.kernel ==> y.kernel[o].s != s
    ensures forall o :: o in y.queue && y.queue[o].IoDone? ==> y.queue[o].s != s
    ensures forall t :: t in y.threads ==> !RefersTo(y.threads[t], s)
  {
    assert Counted(y, s);
    assert KernelOps(y.kernel, s) == {} && QueuedIo(y.queue, s) == {} && Holders(y.threads, s) == {};
    assert forall o :: o in y.kernel && y.kernel[o].s == s ==> o in KernelOps(y.kernel, s);
    assert forall o :: o in y.queue && y.queue[o].IoDone? && y.queue[o].s == s ==> o in QueuedIo(y.queue, s);
    assert forall t :: t in y.threads && RefersTo(y.threads[t], s) ==> t in Holders(y.threads, s);
  }

  /** Something pending: an operation in the kernel, a queued completion, or a thread holding a reference. */
  lemma SomethingPending(y: State, s: Sid)
    requires Accounted(y) && s in y.sessions && y.sessions[s].pendingIO != 0
    ensures (exists o :: o in y.kernel && y.kernel[o].s == s)
            || (exists o :: o in y.queue && y.queue[o].IoDone? && y.queue[o].s == s)
            || (exists t :: t in y.threads && RefersTo(y.threads[t], s))
  {
    assert Counted(y, s);
    if KernelOps(y.kernel, s) != {} {
      var o :| o in KernelOps(y.kernel, s);
    } else if QueuedIo(y.queue, s) != {} {
      var o :| o in QueuedIo(y.queue, s);
    } else {
      assert Holders(y.threads, s) != {};
      var t :| t in Holders(y.threads, s);
    }
  }
}
