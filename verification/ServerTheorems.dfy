/** What holds in every state of every run of the server, whatever the interleaving. */
module ServerTheorems {
  import opened Bytes
  import opened Framing
  import opened Protocol
  import opened Lobby
  import opened Session
  import R = RingBuffer
  import opened Server
  import opened ServerShape
  import opened ServerBaton
  import opened ServerEnding
  import opened ServerRefs
  import opened ServerContexts
  import opened ServerDoom
  import opened ServerLog
  import opened ServerOpening
  import opened ServerWitness
  import opened ServerOrder
  import opened ServerTurns
  import opened ServerSafe
  import LobbyInvariant
  import LobbyTheorems

  lemma {:induction false} RunIsSafe(ys: seq<State>, actions: seq<Action>, i: nat)
    requires IsRun(ys, actions) && i < |ys|
    ensures Safe(ys[i])
  {
    if i == 0 {
      InitIsSafe(ys[0]);
    } else {
      RunIsSafe(ys, actions, i - 1);
      NextKeepsSafe(ys[i - 1], actions[i - 1]);
    }
  }

  // ---- the receive path ---------------------------------------------------------------------------

  /** Who may touch a session's receive buffer and ring. */
  datatype Party = ThreadParty(t: Tid) | KernelParty(o: OpId) | QueueParty(o: OpId)

  ghost predicate Receives(y: State, s: Sid, p: Party) {
    match p
    case ThreadParty(t) => t in y.threads && HasBaton(y.threads[t]) && y.threads[t].s == s
    case KernelParty(o) => o in y.kernel && y.kernel[o] == Op(s, true)
    case QueueParty(o) => o in y.queue && y.queue[o].IoDone? && y.queue[o].isRecv && y.queue[o].s == s
  }

  function BatonOf(p: Party): Baton {
    match p
    case ThreadParty(t) => InThread(t)
    case KernelParty(o) => InKernel(o)
    case QueueParty(o) => InQueue(o)
  }

  /** Never two parties at once, an open session always has one, and recvPosted never turns a PostRecv away. */
  lemma OneReceiver(ys: seq<State>, actions: seq<Action>, i: nat, s: Sid)
    requires IsRun(ys, actions) && i < |ys| && s in ys[i].sessions
    ensures forall p, q :: Receives(ys[i], s, p) && Receives(ys[i], s, q) ==> p == q
    ensures ys[i].sessions[s].state == Connected ==> exists p :: Receives(ys[i], s, p)
    ensures forall t :: t in ys[i].threads && ys[i].threads[t] == Posting(s, PostCas) ==> !ys[i].sessions[s].recvPosted
  {
    RunIsSafe(ys, actions, i);
    var y := ys[i];
    forall p | Receives(y, s, p)
      ensures y.sessions[s].baton == BatonOf(p)
    {
      match p
      case ThreadParty(t) => assert ThreadBaton(y, t);
      case KernelParty(o) => assert KernelBaton(y, o);
      case QueueParty(o) => assert QueueBaton(y, o);
    }
    forall t | t in y.threads && y.threads[t] == Posting(s, PostCas)
      ensures !y.sessions[s].recvPosted
    {
      assert ThreadBaton(y, t);
    }
    assert SessionBaton(y, s);
    match y.sessions[s].baton
    case Nobody =>
    case InThread(t) => assert Receives(y, s, ThreadParty(t));
    case InKernel(o) => assert Receives(y, s, KernelParty(o));
    case InQueue(o) => assert Receives(y, s, QueueParty(o));
  }

  /** A step of this party. */
  predicate IsStepOf(a: Action, p: Party) {
    match p
    case ThreadParty(t) => a.Run? && a.t == t
    case KernelParty(o) => a.Complete? && a.o == o
    case QueueParty(o) => a.Take? && a.o == o
  }

  ghost predicate StreamUnchanged(y: State, y1: State, s: Sid) {
    s in y.sessions && s in y1.sessions && SameStream(y.sessions[s], y1.sessions[s])
  }

  lemma RunMovesItsOwn(y: State, t: Tid, fails: bool, s: Sid)
    requires Safe(y) && CanRun(y, t) && s in y.sessions && !Receives(y, s, ThreadParty(t))
    ensures StreamUnchanged(y, RunStep(y, t, fails), s)
  {
    TurnsOf(y, t, fails);
  }

  lemma CompleteMovesItsOwn(y: State, o: OpId, ok: bool, data: seq<byte>, s: Sid)
    requires o in y.kernel && y.kernel[o].s in y.sessions && s in y.sessions && !Receives(y, s, KernelParty(o))
    ensures StreamUnchanged(y, CompleteStep(y, o, ok, data), s)
  {
  }

  lemma StepMovesItsOwn(y: State, a: Action, s: Sid)
    requires Safe(y) && Enabled(y, a) && s in y.sessions && !StreamUnchanged(y, Next(y, a), s)
    ensures exists p :: Receives(y, s, p) && IsStepOf(a, p)
  {
    match a
    case Run(t, fails) =>
      if !Receives(y, s, ThreadParty(t)) {
        RunMovesItsOwn(y, t, fails, s);
      }
      assert IsStepOf(a, ThreadParty(t));
    case Complete(o, ok, data) =>
      if !Receives(y, s, KernelParty(o)) {
        CompleteMovesItsOwn(y, o, ok, data, s);
      }
      assert IsStepOf(a, KernelParty(o));
    case Accept(_) =>
    case Take(_, _) =>
    case Pop(_) =>
  }

  /** Whatever changes the receive buffer, the ring or the packets taken off it is a step of the one party that
      receives for the session. */
  lemma OnlyTheReceiverMoves(ys: seq<State>, actions: seq<Action>, i: nat, s: Sid)
    requires IsRun(ys, actions) && i < |actions| && s in ys[i].sessions
    ensures s in ys[i + 1].sessions
    ensures !SameStream(ys[i].sessions[s], ys[i + 1].sessions[s]) ==>
              exists p :: Receives(ys[i], s, p) && IsStepOf(actions[i], p) && forall q :: Receives(ys[i], s, q) ==> q == p
  {
    RunIsSafe(ys, actions, i);
    if !StreamUnchanged(ys[i], ys[i + 1], s) {
      StepMovesItsOwn(ys[i], actions[i], s);
      OneReceiver(ys, actions, i, s);
    }
  }

  /** What a worker holds when a receive completes fits in the ring: the overflow branch is dead. */
  lemma RingNeverOverflows(ys: seq<State>, actions: seq<Action>, i: nat, t: Tid, s: Sid, ok: bool)
    requires IsRun(ys, actions) && i < |ys| && t in ys[i].threads && ys[i].threads[t] == Receiving(s, RecvFill, ok)
    ensures s in ys[i].sessions && |ys[i].sessions[s].ring| + |ys[i].sessions[s].buffer| < R.RING_SIZE
  {
    RunIsSafe(ys, actions, i);
    StreamOf(ys[i], t);
    NeverOverflows(s, ys[i].sessions[s], ok);
  }

  // ---- references and destruction -----------------------------------------------------------------

  /** pendingIO is exactly the operations in the kernel, the I/O completions not yet dequeued and the
      threads between their fetch_add or dequeue and the matching fetch_sub. */
  lemma PendingIsExact(ys: seq<State>, actions: seq<Action>, i: nat, s: Sid)
    requires IsRun(ys, actions) && i < |ys| && s in ys[i].sessions
    ensures ys[i].sessions[s].pendingIO ==
            |KernelOps(ys[i].kernel, s)| + |QueuedIo(ys[i].queue, s)| + |Holders(ys[i].threads, s)|
  {
    RunIsSafe(ys, actions, i);
    assert Counted(ys[i], s);
  }

  ghost predicate IsDestroying(y: State, s: Sid) {
    s in y.sessions && y.sessions[s].destroying
  }

  lemma TurnKeepsDestroying(t: Tid, pc: Pc, d: Sess, turn: Turn)
    requires DoomHere(t, pc, d) && DoomLocal(t, pc, d, turn) && WitnessLocal(t, pc, d, turn)
    ensures (d.destroying ==> turn.d.destroying) && d.deletions <= turn.d.deletions
  {
  }

  lemma RunKeepsDestroying(y: State, t: Tid, fails: bool, s: Sid)
    requires Safe(y) && CanRun(y, t) && IsDestroying(y, s)
    ensures var y1 := RunStep(y, t, fails); IsDestroying(y1, s) && y.sessions[s].deletions <= y1.sessions[s].deletions
  {
    HereOf(y, t);
    TurnsOf(y, t, fails);
    TurnKeepsDestroying(t, y.threads[t], y.sessions[y.threads[t].s], TurnAt(y, t, fails));
  }

  lemma StepKeepsDestroying(y: State, a: Action, s: Sid)
    requires Safe(y) && Enabled(y, a) && IsDestroying(y, s)
    ensures IsDestroying(Next(y, a), s) && y.sessions[s].deletions <= Next(y, a).sessions[s].deletions
  {
    if a.Run? {
      RunKeepsDestroying(y, a.t, a.fails, s);
    }
  }

  lemma RunOnKeepsDestroying(ys: seq<State>, actions: seq<Action>, k: nat, s: Sid)
    requires IsRun(ys, actions) && k < |actions| && IsDestroying(ys[k], s)
    ensures IsDestroying(ys[k + 1], s) && ys[k].sessions[s].deletions <= ys[k + 1].sessions[s].deletions
  {
    RunIsSafe(ys, actions, k);
    StepKeepsDestroying(ys[k], actions[k], s);
  }

  lemma {:induction false} DestroyingLasts(ys: seq<State>, actions: seq<Action>, i: nat, j: nat, s: Sid)
    requires IsRun(ys, actions) && i <= j < |ys| && IsDestroying(ys[i], s)
    ensures IsDestroying(ys[j], s) && ys[i].sessions[s].deletions <= ys[j].sessions[s].deletions
  {
    if i < j {
      DestroyingLasts(ys, actions, i, j - 1, s);
      RunOnKeepsDestroying(ys, actions, j - 1, s);
    }
  }

  /** No kernel operation, no undelivered completion and no completion not yet subtracted is on s. */
  ghost predicate IsReleased(y: State, s: Sid) {
    && (forall o :: o in y.kernel ==> y.kernel[o].s != s)
    && (forall o :: o in y.queue && y.queue[o].IoDone? ==> y.queue[o].s != s)
    && (forall t :: t in y.threads && IsHandling(y.threads[t]) ==> y.threads[t].s != s)
  }

  lemma DestroyingIsReleased(y: State, s: Sid)
    requires Dooms(y) && IsDestroying(y, s)
    ensures IsReleased(y, s) && y.sessions[s].deletions <= 1 && y.sessions[s].gameCleanupDone
  {
    assert SessionDoom(y, s);
    forall o
      ensures o in y.kernel ==> y.kernel[o].s != s
      ensures o in y.queue && y.queue[o].IoDone? ==> y.queue[o].s != s
    {
      assert Released(y, o, GameThread);
    }
    forall t
      ensures t in y.threads && IsHandling(y.threads[t]) ==> y.threads[t].s != s
    {
      assert Released(y, 0, t);
    }
  }

  /** The game thread may be about to post the cleanup completion of s, or be at the end of a job of s that came
      after its Disconnect and so does nothing; it is at s for nothing else. */
  ghost predicate OnlyWakes(y: State, s: Sid) {
    var pc := PcOf(y, GameThread);
    pc == Idle || pc.s != s || pc == Gaming(s, GameWake) || (pc.Gaming? && pc.game.GameRun? && !pc.game.disconnecting)
  }

  lemma CleanedOnlyWakes(y: State, s: Sid)
    requires Safe(y) && s in y.sessions && y.sessions[s].ending == CleanedUp
    ensures IsGone(y, s) && OnlyWakes(y, s)
  {
    CleanedIsGone(y, s);
    assert ThreadOk(y, GameThread) && GameEnding(y);
  }

  /** Once TryBeginDestroy has succeeded, and in every later state of the run, no kernel operation and no
      completion refers to the session's buffers; it is deleted at most once, its game side is over, nobody in
      the lobby refers to it and the game thread sends it nothing. What the game thread may still do for it is
      to post the cleanup completion, and to end jobs that do nothing. */
  lemma DestructionIsSafe(ys: seq<State>, actions: seq<Action>, i: nat, j: nat, s: Sid)
    requires IsRun(ys, actions) && i <= j < |ys| && IsDestroying(ys[i], s)
    ensures IsDestroying(ys[j], s) && IsReleased(ys[j], s) && IsGone(ys[j], s) && OnlyWakes(ys[j], s)
    ensures ys[i].sessions[s].deletions <= ys[j].sessions[s].deletions <= 1
  {
    DestroyingLasts(ys, actions, i, j, s);
    RunIsSafe(ys, actions, j);
    DestroyingIsReleased(ys[j], s);
    assert SessionEnding(ys[j], s);
    CleanedOnlyWakes(ys[j], s);
  }

  /** One thread at a time is past TryBeginDestroy for a session, and none once it is deleted. */
  lemma OneDestroyer(ys: seq<State>, actions: seq<Action>, i: nat, s: Sid, t: Tid, u: Tid)
    requires IsRun(ys, actions) && i < |ys| && s in ys[i].sessions
    requires t in ys[i].threads && IsDeleting(ys[i].threads[t]) && ys[i].threads[t].s == s
    requires u in ys[i].threads && IsDeleting(ys[i].threads[u]) && ys[i].threads[u].s == s
    ensures t == u && ys[i].sessions[s].deletions == 0
  {
    RunIsSafe(ys, actions, i);
    assert ThreadDoom(ys[i], t) && ThreadDoom(ys[i], u) && SessionDoom(ys[i], s);
  }

  /** A send context is freed at most once, and while it is not freed it is in one place: with the thread
      that holds it, in the kernel or in the completion queue. */
  lemma ContextsAreFreedOnce(ys: seq<State>, actions: seq<Action>, i: nat, o: OpId)
    requires IsRun(ys, actions) && i < |ys|
    ensures var y := ys[i];
            && y.frees[o] <= 1
            && (y.frees[o] == 1 ==> o in y.contexts && o !in y.kernel && o !in y.queue
                                    && forall t :: t in y.threads && HasContext(y.threads[t]) ==> ContextOf(y.threads[t]) != o)
            && (o in y.contexts && y.frees[o] == 0 ==>
                  || (exists t :: t in y.threads && HasContext(y.threads[t]) && ContextOf(y.threads[t]) == o)
                  || (o in y.kernel && !y.kernel[o].isRecv)
                  || (o in y.queue && y.queue[o].IoDone? && !y.queue[o].isRecv))
  {
    RunIsSafe(ys, actions, i);
    var y := ys[i];
    assert ContextPlaced(y, o) && KernelPlaced(y, o) && QueuePlaced(y, o);
    forall t | t in y.threads && HasContext(y.threads[t]) && ContextOf(y.threads[t]) == o
      ensures y.frees[o] == 0
    {
      assert ThreadPlaced(y, t);
    }
  }

  // ---- session events -----------------------------------------------------------------------------

  /** One Connect, before every other job of the session; at most one Disconnect. */
  lemma EventsAreOnce(ys: seq<State>, actions: seq<Action>, n: nat, i: nat, j: nat)
    requires IsRun(ys, actions) && n < |ys| && i < |ys[n].log| && j < |ys[n].log|
    ensures var log := ys[n].log;
            && (log[i].Connect? && log[j] == log[i] ==> i == j)
            && (log[i].Disconnect? && log[j] == log[i] ==> i == j)
            && (!log[i].Connect? ==> exists k :: 0 <= k < i && log[k] == Connect(log[i].s))
            && (log[i].Connect? && log[j].s == log[i].s ==> i <= j)
  {
    RunIsSafe(ys, actions, n);
    var y := ys[n];
    assert JobLogged(y, i) && JobLogged(y, j);
    assert SessionLogged(y, y.log[i].s) && SessionLogged(y, y.log[j].s);
  }

  /** No player, no room and no effect being or still to be carried out refers to s. */
  ghost predicate IsGone(y: State, s: Sid) {
    && s !in y.lobby.players
    && (forall k :: k in y.lobby.rooms ==> s !in y.lobby.rooms[k].members)
    && (GameThread in y.threads ==>
          && (forall i :: 0 <= i < |EffectsOf(y.threads[GameThread])| ==> EffectsOf(y.threads[GameThread])[i].to != s)
          && (y.threads[GameThread].Sending? || y.threads[GameThread].Ending? ==> y.threads[GameThread].s != s))
  }

  lemma CleanedIsGone(y: State, s: Sid)
    requires Safe(y) && s in y.sessions && y.sessions[s].ending in {Processing, CleanedUp}
    ensures IsGone(y, s)
  {
    assert SessionLogged(y, s) && ThreadOk(y, GameThread);
  }

  /** After its Disconnect has been popped a session is gone from the game, and a packet that comes later
      changes nothing and is answered with nothing. */
  lemma DisconnectIsFinal(ys: seq<State>, actions: seq<Action>, n: nat, i: nat, packet: Packet, env: Env)
    requires IsRun(ys, actions) && n < |ys| && i < ys[n].done <= |ys[n].log| && ys[n].log[i].Disconnect?
    ensures IsGone(ys[n], ys[n].log[i].s)
    ensures Step(ys[n].lobby, Deliver(ys[n].log[i].s, packet), env) == Done(ys[n].lobby, [])
  {
    RunIsSafe(ys, actions, n);
    var y := ys[n];
    assert JobLogged(y, i) && SessionLogged(y, y.log[i].s);
    CleanedIsGone(y, y.log[i].s);
  }

  // ---- no leak, no stuck session ------------------------------------------------------------------

  /** Someone will yet bring the session to TryDestroySession: a thread that is closing it, its Disconnect
      job, the game thread processing that, or a witness. */
  ghost predicate OnItsWay(y: State, s: Sid) {
    || (exists t :: t in y.threads && IsClosing(y.threads[t]) && y.threads[t].s == s)
    || (exists i :: y.done <= i < |y.log| && y.log[i] == Disconnect(s))
    || (GameThread in y.threads && Disconnects(y.threads[GameThread]) && Home(y.threads[GameThread]) == s)
    || Witness(y, s)
  }

  /** In every state: an open session is received for; one that is not open and not being destroyed is on its way. */
  lemma NothingIsForgotten(ys: seq<State>, actions: seq<Action>, i: nat, s: Sid)
    requires IsRun(ys, actions) && i < |ys| && s in ys[i].sessions
    ensures ys[i].sessions[s].state == Connected ==> exists p :: Receives(ys[i], s, p)
    ensures ys[i].sessions[s].state != Connected && !ys[i].sessions[s].destroying ==> OnItsWay(ys[i], s)
    ensures ys[i].sessions[s].destroying && ys[i].sessions[s].deletions == 0 ==>
              exists t :: t in ys[i].threads && IsDeleting(ys[i].threads[t]) && ys[i].threads[t].s == s
  {
    OneReceiver(ys, actions, i, s);
    RunIsSafe(ys, actions, i);
    var y := ys[i];
    assert SessionEnding(y, s) && SessionLogged(y, s) && Watched(y, s) && SessionDoom(y, s);
    if y.sessions[s].ending == JobQueued {
      assert y.log[y.sessions[s].disconnectAt] == Disconnect(s);
    }
  }

  /** Nothing left to do: every thread is idle, both queues are empty, and the kernel has completed every
      operation on a closed socket. */
  ghost predicate Quiescent(y: State) {
    && (forall t :: t in y.threads ==> y.threads[t] == Idle)
    && y.queue == map[] && y.done == |y.log|
    && (forall o :: o in y.kernel ==> y.kernel[o].s in y.sessions && y.sessions[y.kernel[o].s].socketOpen)
  }

  /** No leak: in a quiescent state every session is either open with its receive in the kernel, or was
      deleted exactly once; and every send context not in the kernel has been freed exactly once. */
  lemma NothingLeaks(ys: seq<State>, actions: seq<Action>, i: nat)
    requires IsRun(ys, actions) && i < |ys| && Quiescent(ys[i])
    ensures forall s :: s in ys[i].sessions ==>
              var d := ys[i].sessions[s];
              if d.state == Connected then exists o :: o in ys[i].kernel && ys[i].kernel[o] == Op(s, true)
              else d.deletions == 1
    ensures forall o :: o in ys[i].contexts ==> o in ys[i].kernel || ys[i].frees[o] == 1
  {
    RunIsSafe(ys, actions, i);
    var y := ys[i];
    forall s | s in y.sessions
      ensures var d := y.sessions[s];
              if d.state == Connected then exists o :: o in y.kernel && y.kernel[o] == Op(s, true) else d.deletions == 1
    {
      assert SessionEnding(y, s) && SessionLogged(y, s) && Watched(y, s) && SessionDoom(y, s) && SessionBaton(y, s);
    }
    forall o | o in y.contexts
      ensures o in y.kernel || y.frees[o] == 1
    {
      assert ContextPlaced(y, o);
    }
  }

  /** The game thread waits at a job queue that is not empty. */
  ghost predicate GameIsFree(y: State) {
    GameThread in y.threads && y.threads[GameThread] == Idle && y.done < |y.log|
  }

  ghost function NextJobOf(y: State): Job
    requires GameIsFree(y)
  {
    y.log[y.done]
  }

  /** Nothing is ever blocked: a busy thread can run, an operation can complete, a completion can be taken
      by any idle worker, and a job can be popped by the idle game thread unless it would dangle. */
  lemma NothingIsStuck(ys: seq<State>, actions: seq<Action>, i: nat)
    requires IsRun(ys, actions) && i < |ys|
    ensures forall t, fails :: t in ys[i].threads && ys[i].threads[t] != Idle ==> Enabled(ys[i], Run(t, fails))
    ensures forall o, ok, data :: o in ys[i].kernel && |data| <= BUFFER_SIZE && (ok || data == []) ==> Enabled(ys[i], Complete(o, ok, data))
    ensures forall n, o :: Worker(n) in ys[i].threads && ys[i].threads[Worker(n)] == Idle && o in ys[i].queue ==> Enabled(ys[i], Take(n, o))
    ensures forall env :: GameIsFree(ys[i]) && PickOk(ys[i].lobby, env) && Step(ys[i].lobby, NextJobOf(ys[i]), env).Done? ==>
              Enabled(ys[i], Pop(env))
  {
    RunIsSafe(ys, actions, i);
    var y := ys[i];
    forall t, fails | t in y.threads && y.threads[t] != Idle
      ensures Enabled(y, Run(t, fails))
    {
      BusyCanRun(y, t);
    }
    forall o, ok, data | o in y.kernel && |data| <= BUFFER_SIZE && (ok || data == [])
      ensures Enabled(y, Complete(o, ok, data))
    {
      assert KernelPlaced(y, o);
      OperationsAreTied(y, y.kernel[o].s);
    }
    forall n, o | Worker(n) in y.threads && y.threads[Worker(n)] == Idle && o in y.queue
      ensures Enabled(y, Take(n, o))
    {
      assert QueuePlaced(y, o);
    }
  }
}
