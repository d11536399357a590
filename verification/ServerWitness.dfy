/** A session whose game side is over always has someone who will yet try to delete it. */
module ServerWitness {
  import opened Bytes
  import opened Framing
  import opened Protocol
  import opened Session
  import opened Server
  import opened ServerShape
  import opened ServerRefs

  /** An operation in the kernel, a completion, a worker on the way to TryDestroySession, or the game
      thread about to wake one. */
  ghost predicate Witness(y: State, s: Sid) {
    || (exists o :: o in y.kernel && y.kernel[o].s == s)
    || (exists o :: o in y.queue && y.queue[o].s == s)
    || (exists t :: t in y.threads && Visits(t, y.threads[t]) && y.threads[t].s == s)
    || (GameThread in y.threads && y.threads[GameThread] == Gaming(s, GameWake))
  }

  predicate AwaitsDelete(d: Sess) {
    d.gameCleanupDone && !d.destroying
  }

  ghost predicate Watched(y: State, s: Sid) {
    s in y.sessions && AwaitsDelete(y.sessions[s]) ==> Witness(y, s)
  }

  ghost predicate Witnessed(y: State) {
    forall s :: Watched(y, s)
  }

  /** A worker's visit ends only in the deletion or with something pending. */
  predicate WitnessLocal(t: Tid, pc: Pc, d: Sess, turn: Turn) {
    var pc1, d1 := turn.pc, turn.d;
    && pc != Idle
    && (d.destroying ==> d1.destroying)
    && (pc == Gaming(pc.s, GameWake) ==> turn.touch == Wake)
    && (AwaitsDelete(d1) ==>
          && (!d.gameCleanupDone ==> t == GameThread && pc1 == Gaming(pc.s, GameWake))
          && (d.gameCleanupDone && Visits(t, pc) ==> (Visits(t, pc1) && pc1.s == pc.s) || (d.pendingIO != 0 && !HasRef(pc))))
  }

  /** Others of this session's pending operations, or a worker. */
  ghost predicate OtherWitness(y: State, t: Tid, s: Sid) {
    || (exists o :: o in y.kernel && y.kernel[o].s == s)
    || (exists o :: o in y.queue && y.queue[o].s == s)
    || (exists u :: u in y.threads && u != t && Visits(u, y.threads[u]) && y.threads[u].s == s)
  }

  /** The one who leaves a session with something pending leaves another witness. */
  lemma PendingIsWitness(y: State, t: Tid, s: Sid)
    requires Accounted(y) && s in y.sessions && y.sessions[s].pendingIO != 0
    requires t in y.threads && !HasRef(y.threads[t])
    requires forall u :: u in y.threads && !u.Worker? ==> !RefersTo(y.threads[u], s)
    ensures OtherWitness(y, t, s)
  {
    SomethingPending(y, s);
    if u :| u in y.threads && RefersTo(y.threads[u], s) {
      assert u != t && Visits(u, y.threads[u]);
    }
  }

  lemma KeepKernel(y: State, t: Tid, s: Sid, turn: Turn, r: Sid)
    requires exists o :: o in y.kernel && y.kernel[o].s == r
    requires turn.touch.StartSend? ==> turn.touch.o !in y.kernel
    requires y.nextOp !in y.kernel
    ensures Witness(Apply(y, t, s, turn), r)
  {
    var o :| o in y.kernel && y.kernel[o].s == r;
    assert o in Apply(y, t, s, turn).kernel;
  }

  lemma KeepQueue(y: State, t: Tid, s: Sid, turn: Turn, r: Sid)
    requires exists o :: o in y.queue && y.queue[o].s == r
    requires y.nextOp !in y.queue
    ensures Witness(Apply(y, t, s, turn), r)
  {
    var o :| o in y.queue && y.queue[o].s == r;
    assert o in Apply(y, t, s, turn).queue;
  }

  lemma KeepVisit(y: State, t: Tid, s: Sid, turn: Turn, r: Sid)
    requires exists u :: u in y.threads && u != t && Visits(u, y.threads[u]) && y.threads[u].s == r
    ensures Witness(Apply(y, t, s, turn), r)
  {
    var u :| u in y.threads && u != t && Visits(u, y.threads[u]) && y.threads[u].s == r;
    assert u in Apply(y, t, s, turn).threads;
  }

  lemma WitnessedKept(y: State, t: Tid, s: Sid, turn: Turn)
    requires Witnessed(y) && Accounted(y)
    requires t in y.threads && y.threads[t] != Idle && y.threads[t].s == s && s in y.sessions
    requires WitnessLocal(t, y.threads[t], y.sessions[s], turn)
    requires y.nextOp !in y.kernel && y.nextOp !in y.queue && (turn.touch.StartSend? ==> turn.touch.o !in y.kernel)
    requires y.sessions[s].gameCleanupDone ==> forall u :: u in y.threads && !u.Worker? ==> !RefersTo(y.threads[u], s)
    ensures Witnessed(Apply(y, t, s, turn))
  {
    var y1 := Apply(y, t, s, turn);
    forall r
      ensures Watched(y1, r)
    {
      assert Watched(y, r);
      if r in y1.sessions && AwaitsDelete(y1.sessions[r]) {
        if r == s && !y.sessions[s].gameCleanupDone {
          assert y1.threads[GameThread] == Gaming(s, GameWake);
        } else {
          StillWitnessed(y, t, s, turn, r);
        }
      }
    }
  }

  lemma StillWitnessed(y: State, t: Tid, s: Sid, turn: Turn, r: Sid)
    requires Witness(y, r) && Accounted(y) && r in y.sessions
    requires t in y.threads && y.threads[t] != Idle && y.threads[t].s == s && s in y.sessions
    requires WitnessLocal(t, y.threads[t], y.sessions[s], turn)
    requires y.nextOp !in y.kernel && y.nextOp !in y.queue && (turn.touch.StartSend? ==> turn.touch.o !in y.kernel)
    requires r == s ==> y.sessions[s].gameCleanupDone && AwaitsDelete(turn.d)
    requires y.sessions[s].gameCleanupDone ==> forall u :: u in y.threads && !u.Worker? ==> !RefersTo(y.threads[u], s)
    ensures Witness(Apply(y, t, s, turn), r)
  {
    var y1 := Apply(y, t, s, turn);
    if exists o :: o in y.kernel && y.kernel[o].s == r {
      KeepKernel(y, t, s, turn, r);
    } else if exists o :: o in y.queue && y.queue[o].s == r {
      KeepQueue(y, t, s, turn, r);
    } else if exists u :: u in y.threads && u != t && Visits(u, y.threads[u]) && y.threads[u].s == r {
      KeepVisit(y, t, s, turn, r);
    } else if Visits(t, y.threads[t]) && y.threads[t].s == r {
      if Visits(t, turn.pc) && turn.pc.s == s {
        assert t in y1.threads;
      } else {
        PendingIsWitness(y, t, s);
      }
    } else {
      assert y.threads[GameThread] == Gaming(r, GameWake);
      if t == GameThread {
        assert y.nextOp in y1.queue && y1.queue[y.nextOp].s == r;
      }
    }
  }

  lemma AcceptWitnessed(y: State, s: Sid)
    requires Witnessed(y) && Acceptor in y.threads && y.threads[Acceptor] == Idle && s !in y.sessions
    ensures Witnessed(AcceptNew(y, s))
  {
    var y1 := AcceptNew(y, s);
    forall r
      ensures Watched(y1, r)
    {
      assert Watched(y, r);
      assert forall u :: u in y.threads && u != Acceptor ==> u in y1.threads && y1.threads[u] == y.threads[u];
    }
  }

  lemma CompleteWitnessed(y: State, o: OpId, ok: bool, data: seq<byte>)
    requires Witnessed(y) && o in y.kernel && y.kernel[o].s in y.sessions && o !in y.queue
    ensures Witnessed(CompleteStep(y, o, ok, data))
  {
    var y1 := CompleteStep(y, o, ok, data);
    forall r
      ensures Watched(y1, r)
    {
      assert Watched(y, r);
      assert o in y1.queue && y1.queue[o].s == y.kernel[o].s;
      assert forall p :: p in y.kernel && p != o ==> p in y1.kernel && y1.kernel[p] == y.kernel[p];
      assert forall p :: p in y.queue ==> p in y1.queue && y1.queue[p] == y.queue[p];
    }
  }

  lemma TakeWitnessed(y: State, n: nat, o: OpId)
    requires Witnessed(y) && Worker(n) in y.threads && y.threads[Worker(n)] == Idle && o in y.queue && y.queue[o].s in y.sessions
    ensures Witnessed(TakeStep(y, n, o))
  {
    var y1 := TakeStep(y, n, o);
    forall r
      ensures Watched(y1, r)
    {
      assert Watched(y, r);
      assert Worker(n) in y1.threads && Visits(Worker(n), y1.threads[Worker(n)]) && y1.threads[Worker(n)].s == y.queue[o].s;
      assert forall p :: p in y.queue && p != o ==> p in y1.queue && y1.queue[p] == y.queue[p];
      assert forall u :: u in y.threads && u != Worker(n) ==> u in y1.threads && y1.threads[u] == y.threads[u];
    }
  }

  /** The game thread takes a job up. */
  lemma PopWitnessed(y: State, y1: State, s: Sid)
    requires Witnessed(y) && GameThread in y.threads && y.threads[GameThread] == Idle && s in y.sessions
    requires GameThread in y1.threads && y1.threads == y.threads[GameThread := y1.threads[GameThread]]
    requires y1.kernel == y.kernel && y1.queue == y.queue
    requires s in y1.sessions && y1.sessions == y.sessions[s := y1.sessions[s]]
    requires AwaitsDelete(y1.sessions[s]) == AwaitsDelete(y.sessions[s])
    ensures Witnessed(y1)
  {
    forall r
      ensures Watched(y1, r)
    {
      assert Watched(y, r);
      assert forall u :: u in y.threads && u != GameThread ==> u in y1.threads && y1.threads[u] == y.threads[u];
    }
  }
}
