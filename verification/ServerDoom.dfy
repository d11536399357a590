/**
 Destruction: a session is deleted by one thread, once, and from the moment a worker has seen nothing
 pending, no operation or completion refers to the session's buffers.
 */
module ServerDoom {
  import opened Bytes
  import opened Framing
  import opened Protocol
  import opened Session
  import opened Server
  import opened ServerShape
  import opened ServerEnding
  import opened ServerRefs

  predicate DoomOk(d: Sess) {
    && (d.destroying <==> d.destroyer != NoOne)
    && d.deletions == (if d.destroyer == Deleted then 1 else 0)
    && (d.destroying ==> d.doomed)
    && (d.doomed ==> d.gameCleanupDone)
  }

  /** What a thread in TryDestroySession knows of the session. */
  predicate DoomHere(t: Tid, pc: Pc, d: Sess) {
    && DoomOk(d)
    && (pc.Destroying? && pc.td != TdState && pc.td != TdCleanup ==> d.gameCleanupDone)
    && (IsDoomed(pc) ==> d.doomed)
    && (IsDeleting(pc) ==> d.destroyer == By(t))
  }

  ghost predicate ThreadDoom(y: State, t: Tid) {
    t in y.threads && y.threads[t] != Idle ==> y.threads[t].s in y.sessions && DoomHere(t, y.threads[t], y.sessions[y.threads[t].s])
  }

  ghost predicate SessionDoom(y: State, s: Sid) {
    s in y.sessions ==>
      var d := y.sessions[s];
      DoomOk(d) && (d.destroyer.By? ==> d.destroyer.t in y.threads && IsDeleting(y.threads[d.destroyer.t]) && y.threads[d.destroyer.t].s == s)
  }

  ghost predicate IsDoomedSid(y: State, s: Sid) {
    s in y.sessions && y.sessions[s].doomed
  }

  /** No operation, no queued completion and no completion being taken in is on a doomed session. */
  ghost predicate Released(y: State, o: OpId, t: Tid) {
    && (o in y.kernel ==> !IsDoomedSid(y, y.kernel[o].s))
    && (o in y.queue && y.queue[o].IoDone? ==> !IsDoomedSid(y, y.queue[o].s))
    && (t in y.threads && IsHandling(y.threads[t]) ==> !IsDoomedSid(y, y.threads[t].s))
  }

  ghost predicate Dooms(y: State) {
    (forall t :: ThreadDoom(y, t)) && (forall s :: SessionDoom(y, s)) && (forall o, t :: Released(y, o, t))
  }

  predicate DoomLocal(t: Tid, pc: Pc, d: Sess, turn: Turn) {
    var pc1, d1 := turn.pc, turn.d;
    && pc != Idle
    && (d.gameCleanupDone ==> d1.gameCleanupDone)
    && (d.doomed ==> d1.doomed)
    && (d1.doomed && !d.doomed ==> d.pendingIO == 0 && turn.touch == NoTouch)
    && (IsHandling(pc1) ==> IsHandling(pc) && pc1.s == pc.s)
    && (Starts(turn.touch) ==> d.socketOpen)
    && (pc1.Destroying? ==> pc1.s == pc.s)
    && DoomHere(t, pc1, d1)
    && (if IsDeleting(pc1) then IsDeleting(pc) || d.destroyer == NoOne
        else if IsDeleting(pc) then d1.destroyer == Deleted
        else d1.destroyer == d.destroyer)
  }

  lemma ReleasedKept(y: State, t: Tid, s: Sid, turn: Turn)
    requires Dooms(y) && Accounted(y) && SessionEnding(y, s)
    requires t in y.threads && y.threads[t] != Idle && y.threads[t].s == s && s in y.sessions
    requires DoomLocal(t, y.threads[t], y.sessions[s], turn)
    ensures forall o, u :: Released(Apply(y, t, s, turn), o, u)
  {
    var y1 := Apply(y, t, s, turn);
    assert SessionDoom(y, s);
    if turn.d.doomed && !y.sessions[s].doomed {
      NothingPending(y, s);
    }
    forall o, u ensures Released(y1, o, u) { assert Released(y, o, u) && Released(y, o, t); }
  }

  lemma DoomsKept(y: State, t: Tid, s: Sid, turn: Turn)
    requires Dooms(y) && Accounted(y) && SessionEnding(y, s)
    requires t in y.threads && y.threads[t] != Idle && y.threads[t].s == s && s in y.sessions
    requires turn.pc != Idle ==> turn.pc.s in y.sessions
    requires DoomLocal(t, y.threads[t], y.sessions[s], turn)
    ensures Dooms(Apply(y, t, s, turn))
  {
    var y1 := Apply(y, t, s, turn);
    assert ThreadDoom(y, t) && SessionDoom(y, s);
    forall u ensures ThreadDoom(y1, u) {
      assert ThreadDoom(y, u);
      assert u == t && turn.pc != Idle ==> SessionDoom(y, turn.pc.s);
    }
    forall r ensures SessionDoom(y1, r) { assert SessionDoom(y, r); }
    ReleasedKept(y, t, s, turn);
  }

  lemma AcceptDooms(y: State, s: Sid)
    requires Dooms(y) && Acceptor in y.threads && y.threads[Acceptor] == Idle && s !in y.sessions
    ensures Dooms(AcceptNew(y, s))
  {
    var y1 := AcceptNew(y, s);
    forall u ensures ThreadDoom(y1, u) { assert ThreadDoom(y, u); }
    forall r ensures SessionDoom(y1, r) { assert SessionDoom(y, r); }
    forall o, u ensures Released(y1, o, u) { assert Released(y, o, u); }
  }

  lemma CompleteDooms(y: State, o: OpId, ok: bool, data: seq<byte>)
    requires Dooms(y) && o in y.kernel && y.kernel[o].s in y.sessions
    ensures Dooms(CompleteStep(y, o, ok, data))
  {
    var y1 := CompleteStep(y, o, ok, data);
    forall u ensures ThreadDoom(y1, u) { assert ThreadDoom(y, u); }
    forall r ensures SessionDoom(y1, r) { assert SessionDoom(y, r); }
    forall p, u ensures Released(y1, p, u) { assert Released(y, p, u) && Released(y, o, u); }
  }

  lemma TakeDooms(y: State, n: nat, o: OpId)
    requires Dooms(y) && Worker(n) in y.threads && y.threads[Worker(n)] == Idle && o in y.queue && y.queue[o].s in y.sessions
    ensures Dooms(TakeStep(y, n, o))
  {
    var y1 := TakeStep(y, n, o);
    assert SessionDoom(y, y.queue[o].s);
    forall u ensures ThreadDoom(y1, u) { assert ThreadDoom(y, u); }
    forall r ensures SessionDoom(y1, r) { assert SessionDoom(y, r); }
    forall p, u ensures Released(y1, p, u) { assert Released(y, p, u) && Released(y, o, u); }
  }

  /** The game thread takes a job up. */
  lemma PopDooms(y: State, y1: State, s: Sid)
    requires Dooms(y) && GameThread in y.threads && y.threads[GameThread] == Idle && s in y.sessions
    requires GameThread in y1.threads && y1.threads == y.threads[GameThread := y1.threads[GameThread]]
    requires y1.threads[GameThread].Gaming? && y1.threads[GameThread].s == s
    requires y1.kernel == y.kernel && y1.queue == y.queue
    requires y1.sessions == y.sessions || y1.sessions == y.sessions[s := y.sessions[s].(ending := Processing)]
    ensures Dooms(y1)
  {
    assert SessionDoom(y, s);
    forall u ensures ThreadDoom(y1, u) { assert ThreadDoom(y, u); }
    forall r ensures SessionDoom(y1, r) { assert SessionDoom(y, r); }
    forall o, u ensures Released(y1, o, u) { assert Released(y, o, u); }
  }
}
