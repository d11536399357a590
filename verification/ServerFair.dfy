/**
 Every session that stops being open is deleted in the end, whatever else goes on meanwhile, as long as
 every thread, completion and job gets its turn at some time.

 The proof follows one session. In every state before its deletion somebody has a step to take for it, and
 that step lowers its rank; until then no step of anybody else raises the rank or takes the helper away.
 */
module ServerFair {
  import opened Bytes
  import opened Framing
  import opened Protocol
  import opened Lobby
  import opened Session
  import opened Server
  import opened ServerShape
  import opened ServerBaton
  import opened ServerEnding
  import opened ServerRefs
  import opened ServerContexts
  import opened ServerDoom
  import opened ServerLog
  import opened ServerOpening
  import opened ServerWitness
  import opened ServerOrder
  import opened ServerTurns
  import opened ServerSafe
  import opened ServerTheorems
  import opened ServerDrain

  // ---- helpers and fairness -----------------------------------------------------------------------

  /** Whose turn it is: a thread, the kernel with an operation, the port with a completion, the game thread with a job. */
  datatype Helper = OfThread(t: Tid) | OfKernel(o: OpId) | OfPort(o: OpId) | OfGame

  predicate IsBy(a: Action, h: Helper) {
    match h
    case OfThread(t) => a.Run? && a.t == t
    case OfKernel(o) => a.Complete? && a.o == o
    case OfPort(o) => a.Take? && a.o == o
    case OfGame => a.Pop?
  }

  /** The helper has a step to take, and will have it until it takes it. */
  ghost predicate Awaits(y: State, h: Helper) {
    match h
    case OfThread(t) => t in y.threads && y.threads[t] != Idle
    case OfKernel(o) =>
      o in y.kernel && y.kernel[o].s in y.sessions && !(y.kernel[o].isRecv && y.sessions[y.kernel[o].s].socketOpen)
    case OfPort(o) => o in y.queue
    case OfGame => GameIsFree(y) && !IsBlocked(y)
  }

  ghost predicate Happens(actions: nat -> Action, h: Helper, i: nat) {
    exists j: nat :: j >= i && IsBy(actions(j), h)
  }

  /** Whoever waits gets a turn: a busy thread steps, a send and a receive on a closed socket complete, a
      completion is dequeued, a job that does not dangle is popped. Nothing is said of when. */
  ghost predicate IsFair(ys: nat -> State, actions: nat -> Action) {
    forall i: nat, h :: Awaits(ys(i), h) ==> Happens(actions, h, i)
  }

  // ---- the rank of a session ----------------------------------------------------------------------

  datatype Rank = Rank(phase: nat, a: nat, b: nat, c: nat)

  predicate Below(r: Rank, q: Rank) {
    || r.phase < q.phase
    || (r.phase == q.phase && (r.a < q.a || (r.a == q.a && (r.b < q.b || (r.b == q.b && r.c < q.c)))))
  }

  /** The work of a thread that bears on the deletion of s. */
  function WorkFor(s: Sid): Pc -> nat {
    (pc: Pc) => if pc == Idle || pc.s != s || (pc.Gaming? && pc.game != GameWake) then 0 else Work(pc)
  }

  function BoundFor(s: Sid): Pc -> nat {
    (pc: Pc) => if pc == Idle || pc.s != s then 0 else Bound(pc)
  }

  function OpWorkFor(s: Sid): Op -> nat {
    (op: Op) => if op.s == s then OpWork(op) else 0
  }

  function RecvsFor(s: Sid): Op -> nat {
    (op: Op) => if op.s == s && op.isRecv then 1 else 0
  }

  function QueueWorkFor(s: Sid): Completion -> nat {
    (c: Completion) => if c.s == s then QueueWork(c) else 0
  }

  /** What is left to do for s once its game side is over. */
  ghost function Leftovers(y: State, s: Sid): Rank
    requires s in y.sessions
  {
    Rank(1, SumOf(y.kernel, RecvsFor(s)),
         Promise(y.sessions[s]) + SumOf(y.threads, BoundFor(s)),
         SumOf(y.threads, WorkFor(s)) + SumOf(y.kernel, OpWorkFor(s)) + SumOf(y.queue, QueueWorkFor(s)))
  }

  /** Being closed; its Disconnect queued; that being processed; on its way to TryDestroySession; being deleted. */
  ghost function RankOf(y: State, s: Sid): Rank
    requires s in y.sessions
  {
    var d, game := y.sessions[s], PcOf(y, GameThread);
    match d.ending
    case NotYet => Rank(5, 0, 0, 0)
    case ClosingBy(t) => Rank(4, 0, 0, Work(PcOf(y, t)))
    case JobQueued => Rank(3, if d.disconnectAt >= y.done then d.disconnectAt - y.done else 0, |EffectsOf(game)|, Work(game))
    case Processing => Rank(2, 0, |EffectsOf(game)|, Work(game))
    case CleanedUp =>
      match d.destroyer {
        case NoOne => Leftovers(y, s)
        case By(t) => Rank(0, 0, 0, Work(PcOf(y, t)))
        case Deleted => Rank(0, 0, 0, 0)
      }
  }

  /** Who brings the deletion of s nearer. */
  ghost predicate Helps(y: State, s: Sid, h: Helper)
    requires s in y.sessions
  {
    var d := y.sessions[s];
    match d.ending
    case NotYet => false
    case ClosingBy(t) => h == OfThread(t)
    case JobQueued => h == if PcOf(y, GameThread) == Idle then OfGame else OfThread(GameThread)
    case Processing => h == OfThread(GameThread)
    case CleanedUp =>
      if d.destroyer.By? then h == OfThread(d.destroyer.t)
      else if d.destroyer == Deleted then false
      else
        match h {
          case OfThread(t) => PcOf(y, t) != Idle && PcOf(y, t).s == s && (Visits(t, PcOf(y, t)) || PcOf(y, t) == Gaming(s, GameWake))
          case OfKernel(o) => o in y.kernel && y.kernel[o].s == s
          case OfPort(o) => o in y.queue && y.queue[o].s == s
          case OfGame => false
        }
  }

  /** The rank falls; or somebody else moved, it is what it was, and the helper still has its step to take. */
  ghost predicate Advances(y: State, y1: State, s: Sid, h: Helper, a: Action)
    requires s in y.sessions
  {
    && s in y1.sessions
    && (Below(RankOf(y1, s), RankOf(y, s)) || (!IsBy(a, h) && RankOf(y1, s) == RankOf(y, s) && Helps(y1, s, h)))
  }

  // ---- single steps -------------------------------------------------------------------------------

  predicate Lighter(pc1: Pc, pc: Pc) {
    |EffectsOf(pc1)| < |EffectsOf(pc)| || (|EffectsOf(pc1)| == |EffectsOf(pc)| && Work(pc1) < Work(pc))
  }

  /** The game thread gets on with its effects, and with each of them. */
  lemma GameGetsOn(pc: Pc, d: Sess, fails: bool, next: OpId, logged: nat)
    requires pc != Idle && Shape(GameThread, pc) && MayTurn(pc, d)
    ensures Lighter(TurnOf(GameThread, pc, d, fails, next, logged).pc, pc)
  {
  }

  /** A close gets on until its job is pushed. */
  lemma CloseGetsOn(t: Tid, pc: Pc, d: Sess, fails: bool, next: OpId, logged: nat)
    requires Here(t, pc, d) && IsClosing(pc)
    ensures var turn := TurnOf(t, pc, d, fails, next, logged);
            turn.d.ending == JobQueued || (turn.d.ending == d.ending && Work(turn.pc) < Work(pc))
  {
  }

  /** A deletion gets on. */
  lemma DeletionGetsOn(t: Tid, pc: Pc, d: Sess, fails: bool, next: OpId, logged: nat)
    requires Here(t, pc, d) && IsDeleting(pc)
    ensures var turn := TurnOf(t, pc, d, fails, next, logged);
            && turn.d.ending == d.ending
            && Work(turn.pc) < Work(pc) && (turn.d.destroyer == Deleted || turn.d.destroyer == d.destroyer)
  {
  }

  /** Who may move the disconnect and the deletion of a session, and how far. */
  predicate MovesOn(t: Tid, pc: Pc, d: Sess, d1: Sess) {
    && (d1.ending == d.ending || d.ending == NotYet || (d.ending == ClosingBy(t) && IsClosing(pc) && d1.ending == JobQueued)
        || (d.ending == Processing && t == GameThread && d1.ending == CleanedUp))
    && (d1.disconnectAt == d.disconnectAt || d.ending == NotYet || d.ending == ClosingBy(t))
    && (d1.destroyer == d.destroyer
        || (d.destroyer == NoOne && d1.destroyer == By(t))
        || (d.destroyer == By(t) && IsDeleting(pc)))
  }

  lemma TurnMovesOn(t: Tid, pc: Pc, d: Sess, turn: Turn, logged: nat)
    requires Here(t, pc, d) && EndingLocal(t, pc, d, turn) && LogLocal(pc, d, turn, logged) && DoomLocal(t, pc, d, turn)
    ensures MovesOn(t, pc, d, turn.d)
  {
  }

  lemma RunMovesOn(y: State, t: Tid, fails: bool, s: Sid)
    requires Safe(y) && CanRun(y, t) && s in y.sessions && y.threads[t].s == s
    ensures MovesOn(t, y.threads[t], y.sessions[s], RunStep(y, t, fails).sessions[s])
  {
    HereOf(y, t);
    TurnsOf(y, t, fails);
    TurnMovesOn(t, y.threads[t], y.sessions[s], TurnAt(y, t, fails), |y.log|);
  }

  // ---- while it is being closed, queued, processed or deleted --------------------------------------

  /** The session is at a stage at which one thread, or the next pop, brings it on. */
  predicate OneHelps(d: Sess) {
    d.ending != NotYet && (d.ending == CleanedUp ==> d.destroyer.By?)
  }

  /** Somebody else's step: the session keeps its stage, the threads concerned stay where they are. */
  lemma StageStays(y: State, y1: State, s: Sid, h: Helper, a: Action)
    requires s in y.sessions && s in y1.sessions && OneHelps(y.sessions[s]) && Helps(y, s, h) && !IsBy(a, h)
    requires var d, d1 := y.sessions[s], y1.sessions[s];
             d1.ending == d.ending && d1.disconnectAt == d.disconnectAt && (d.ending == CleanedUp ==> d1.destroyer == d.destroyer)
    requires h.OfThread? ==> PcOf(y1, h.t) == PcOf(y, h.t)
    requires h.OfGame? ==> PcOf(y1, GameThread) == PcOf(y, GameThread)
    requires y1.done == y.done
    ensures Advances(y, y1, s, h, a)
  {
  }

  lemma OthersKeepStage(y: State, t: Tid, fails: bool, s: Sid)
    requires Safe(y) && CanRun(y, t) && s in y.sessions && OneHelps(y.sessions[s]) && !Helps(y, s, OfThread(t))
    ensures var d, d1 := y.sessions[s], RunStep(y, t, fails).sessions[s];
            d1.ending == d.ending && d1.disconnectAt == d.disconnectAt && (d.ending == CleanedUp ==> d1.destroyer == d.destroyer)
  {
    assert SessionEnding(y, s) && SessionDoom(y, s);
    if y.threads[t].s == s {
      RunMovesOn(y, t, fails, s);
    }
  }

  lemma OthersRun(y: State, t: Tid, fails: bool, s: Sid, h: Helper)
    requires CanRun(y, t) && s in y.sessions && OneHelps(y.sessions[s]) && Helps(y, s, h) && h != OfThread(t)
    requires h.OfGame? ==> t != GameThread
    requires var d, d1 := y.sessions[s], RunStep(y, t, fails).sessions[s];
             d1.ending == d.ending && d1.disconnectAt == d.disconnectAt && (d.ending == CleanedUp ==> d1.destroyer == d.destroyer)
    ensures Advances(y, RunStep(y, t, fails), s, h, Run(t, fails))
  {
    StageStays(y, RunStep(y, t, fails), s, h, Run(t, fails));
  }

  lemma CloserRuns(y: State, t: Tid, fails: bool, s: Sid)
    requires Safe(y) && CanRun(y, t) && s in y.sessions && y.sessions[s].ending == ClosingBy(t)
    ensures Advances(y, RunStep(y, t, fails), s, OfThread(t), Run(t, fails))
  {
    assert SessionEnding(y, s);
    HereOf(y, t);
    CloseGetsOn(t, y.threads[t], y.sessions[s], fails, y.nextOp, |y.log|);
  }

  lemma DeleterRuns(y: State, t: Tid, fails: bool, s: Sid)
    requires Safe(y) && CanRun(y, t) && s in y.sessions && y.sessions[s].ending == CleanedUp && y.sessions[s].destroyer == By(t)
    ensures Advances(y, RunStep(y, t, fails), s, OfThread(t), Run(t, fails))
  {
    assert SessionDoom(y, s);
    HereOf(y, t);
    DeletionGetsOn(t, y.threads[t], y.sessions[s], fails, y.nextOp, |y.log|);
  }

  lemma GameIsNearer(y: State, y1: State, s: Sid)
    requires s in y.sessions && s in y1.sessions && y1.done == y.done && Lighter(PcOf(y1, GameThread), PcOf(y, GameThread))
    requires var d, d1 := y.sessions[s], y1.sessions[s];
             && d.ending in {JobQueued, Processing} && d1.disconnectAt == d.disconnectAt
             && (d1.ending == d.ending || (d.ending == Processing && d1.ending == CleanedUp))
    ensures Below(RankOf(y1, s), RankOf(y, s))
  {
  }

  lemma GameRuns(y: State, fails: bool, s: Sid)
    requires Safe(y) && CanRun(y, GameThread) && s in y.sessions && y.sessions[s].ending in {JobQueued, Processing}
    ensures Advances(y, RunStep(y, GameThread, fails), s, OfThread(GameThread), Run(GameThread, fails))
  {
    var pc := y.threads[GameThread];
    assert ThreadOk(y, GameThread);
    if pc.s == s {
      RunMovesOn(y, GameThread, fails, s);
    }
    GameGetsOn(pc, y.sessions[pc.s], fails, y.nextOp, |y.log|);
    GameIsNearer(y, RunStep(y, GameThread, fails), s);
  }

  lemma HelperRuns(y: State, t: Tid, fails: bool, s: Sid)
    requires Safe(y) && CanRun(y, t) && s in y.sessions && OneHelps(y.sessions[s]) && Helps(y, s, OfThread(t))
    ensures Advances(y, RunStep(y, t, fails), s, OfThread(t), Run(t, fails))
  {
    match y.sessions[s].ending
    case ClosingBy(_) => CloserRuns(y, t, fails, s);
    case JobQueued => GameRuns(y, fails, s);
    case Processing => GameRuns(y, fails, s);
    case CleanedUp => DeleterRuns(y, t, fails, s);
  }

  lemma HelperIsBusy(y: State, s: Sid, t: Tid)
    requires Safe(y) && s in y.sessions && OneHelps(y.sessions[s]) && Helps(y, s, OfThread(t))
    ensures PcOf(y, t) != Idle
  {
    assert SessionEnding(y, s) && SessionDoom(y, s);
  }

  lemma OthersAccept(y: State, r: Sid, s: Sid, h: Helper)
    requires Safe(y) && Enabled(y, Accept(r)) && s in y.sessions && OneHelps(y.sessions[s]) && Helps(y, s, h)
    ensures Advances(y, AcceptNew(y, r), s, h, Accept(r))
  {
    if h.OfThread? {
      HelperIsBusy(y, s, h.t);
    }
    StageStays(y, AcceptNew(y, r), s, h, Accept(r));
  }

  lemma KernelCompletes(y: State, o: OpId, ok: bool, data: seq<byte>, s: Sid, h: Helper)
    requires Safe(y) && Enabled(y, Complete(o, ok, data)) && s in y.sessions && OneHelps(y.sessions[s]) && Helps(y, s, h)
    ensures Advances(y, CompleteStep(y, o, ok, data), s, h, Complete(o, ok, data))
  {
    StageStays(y, CompleteStep(y, o, ok, data), s, h, Complete(o, ok, data));
  }

  lemma WorkerTakes(y: State, n: nat, o: OpId, s: Sid, h: Helper)
    requires Safe(y) && Enabled(y, Take(n, o)) && s in y.sessions && OneHelps(y.sessions[s]) && Helps(y, s, h)
    ensures Advances(y, TakeStep(y, n, o), s, h, Take(n, o))
  {
    if h.OfThread? {
      HelperIsBusy(y, s, h.t);
    }
    StageStays(y, TakeStep(y, n, o), s, h, Take(n, o));
  }

  /** The job popped is the one Disconnect of s, or s has one job less to wait for, or nothing to do with it. */
  lemma GamePops(y: State, l: Lobby, fx: seq<Effect>, s: Sid, h: Helper, env: Env)
    requires Safe(y) && GameIsFree(y) && y.log[y.done].s in y.sessions
    requires s in y.sessions && OneHelps(y.sessions[s]) && Helps(y, s, h)
    ensures Advances(y, Popped(y, l, fx), s, h, Pop(env))
  {
    NextJob(y);
    assert SessionLogged(y, s);
    if h.OfThread? {
      HelperIsBusy(y, s, h.t);
    }
    if y.sessions[s].ending == JobQueued {
      JobIsPopped(y, l, fx, s, env);
    } else {
      var y1 := Popped(y, l, fx);
      assert y1.sessions[s].ending == y.sessions[s].ending;
      assert RankOf(y1, s) == RankOf(y, s);
    }
  }

  lemma JobIsPopped(y: State, l: Lobby, fx: seq<Effect>, s: Sid, env: Env)
    requires Safe(y) && GameIsFree(y) && y.log[y.done].s in y.sessions && s in y.sessions && y.sessions[s].ending == JobQueued
    ensures Below(RankOf(Popped(y, l, fx), s), RankOf(y, s))
  {
    assert JobLogged(y, y.done) && SessionLogged(y, s);
  }

  // ---- on its way to TryDestroySession ------------------------------------------------------------

  /** The game side is over and nobody has won the right to delete. */
  ghost predicate Lingers(y: State, s: Sid) {
    s in y.sessions && y.sessions[s].ending == CleanedUp && y.sessions[s].destroyer == NoOne
  }

  lemma LingerFacts(y: State, s: Sid)
    requires Safe(y) && Lingers(y, s)
    ensures var d := y.sessions[s]; d.gameCleanupDone && !d.socketOpen && d.state == Closed && !d.destroying
    ensures s !in y.lobby.players && IsGone(y, s)
  {
    assert SessionEnding(y, s) && SessionLogged(y, s) && SessionDoom(y, s);
    CleanedIsGone(y, s);
  }

  lemma KernelFor(y: State, r: Sid, touch: Touch, s: Sid)
    requires y.nextOp !in y.kernel && (touch.StartSend? ==> touch.o !in y.kernel)
    requires touch.StartRecv? || touch.StartSend? ==> r != s
    ensures SumOf(KernelAfter(y, r, touch), RecvsFor(s)) == SumOf(y.kernel, RecvsFor(s))
    ensures SumOf(KernelAfter(y, r, touch), OpWorkFor(s)) == SumOf(y.kernel, OpWorkFor(s))
  {
    match touch
    case StartRecv =>
      SumWith(y.kernel, RecvsFor(s), y.nextOp, Op(r, true));
      SumWith(y.kernel, OpWorkFor(s), y.nextOp, Op(r, true));
    case StartSend(o) =>
      SumWith(y.kernel, RecvsFor(s), o, Op(r, false));
      SumWith(y.kernel, OpWorkFor(s), o, Op(r, false));
    case _ =>
  }

  /** A step changes what is left for s by what it changes at its thread, its session and the queue. */
  lemma LeftoversAfter(y: State, t: Tid, r: Sid, turn: Turn, s: Sid)
    requires y.nextOp !in y.kernel && y.nextOp !in y.queue && (turn.touch.StartSend? ==> turn.touch.o !in y.kernel)
    requires t in y.threads && r in y.sessions && s in y.sessions
    requires turn.touch.StartRecv? || turn.touch.StartSend? ==> r != s
    ensures var y1 := Apply(y, t, r, turn);
            && Leftovers(y1, s).a == Leftovers(y, s).a
            && Leftovers(y1, s).b == Leftovers(y, s).b + Promise(y1.sessions[s]) - Promise(y.sessions[s])
                                     + BoundFor(s)(turn.pc) - BoundFor(s)(y.threads[t])
            && Leftovers(y1, s).c == Leftovers(y, s).c + WorkFor(s)(turn.pc) - WorkFor(s)(y.threads[t])
                                     + if turn.touch.Wake? && r == s then 7 else 0
  {
    SumWith(y.threads, BoundFor(s), t, turn.pc);
    SumWith(y.threads, WorkFor(s), t, turn.pc);
    KernelFor(y, r, turn.touch, s);
    SumWith(y.queue, QueueWorkFor(s), y.nextOp, Cleanup(r));
  }

  lemma OnlyTheGameWakes(t: Tid, pc: Pc, d: Sess, fails: bool, next: OpId, logged: nat)
    requires pc != Idle && Shape(t, pc) && t != GameThread && MayTurn(pc, d)
    ensures !TurnOf(t, pc, d, fails, next, logged).touch.Wake?
  {
  }

  /** What a step at s itself, of any thread but the game's, leaves there. */
  lemma LocalTurn(y: State, t: Tid, fails: bool, s: Sid)
    requires Safe(y) && Lingers(y, s) && CanRun(y, t) && t != GameThread && y.threads[t].s == s
    ensures var d, pc, turn := y.sessions[s], y.threads[t], TurnAt(y, t, fails);
            && Shrinks(pc, d, turn) && EffectsOf(pc) == [] && EffectsOf(turn.pc) == []
            && !Starts(turn.touch) && !turn.touch.Wake?
            && !pc.Gaming? && !turn.pc.Gaming? && (turn.pc == Idle || turn.pc.s == s)
            && turn.d.ending == CleanedUp && turn.d.destroyer in {NoOne, By(t)}
  {
    var pc, d := y.threads[t], y.sessions[s];
    LingerFacts(y, s);
    HereOf(y, t);
    TurnsOf(y, t, fails);
    if HasBaton(pc) {
      StreamOf(y, t);
    }
    TurnShrinks(t, pc, d, fails, y.nextOp, |y.log|);
    NoEffectsElsewhere(t, pc);
    NoEffectsElsewhere(t, TurnAt(y, t, fails).pc);
    OnlyTheGameWakes(t, pc, d, fails, y.nextOp, |y.log|);
    TurnMovesOn(t, pc, d, TurnAt(y, t, fails), |y.log|);
  }

  lemma LocalRuns(y: State, t: Tid, fails: bool, s: Sid)
    requires Safe(y) && Lingers(y, s) && CanRun(y, t) && t != GameThread && y.threads[t].s == s
    ensures Below(RankOf(RunStep(y, t, fails), s), RankOf(y, s))
  {
    LocalTurn(y, t, fails, s);
    NextIsFresh(y);
    LeftoversAfter(y, t, s, TurnAt(y, t, fails), s);
  }

  /** A helper other than the thread that steps is still there. */
  lemma HelperStays(y: State, t: Tid, r: Sid, turn: Turn, s: Sid, h: Helper)
    requires Placed(y) && Lingers(y, s) && Helps(y, s, h) && h != OfThread(t) && t in y.threads && r in y.sessions
    requires turn.touch.StartSend? ==> turn.touch.o !in y.kernel
    ensures var y1 := Apply(y, t, r, turn); Lingers(y1, s) ==> Helps(y1, s, h)
  {
    NextIsFresh(y);
  }

  lemma ElsewhereTurn(y: State, t: Tid, fails: bool, s: Sid)
    requires Safe(y) && CanRun(y, t) && t != GameThread && y.threads[t].s != s
    ensures var turn := TurnAt(y, t, fails);
            && (turn.pc == Idle || turn.pc.s != s) && (turn.touch.StartSend? ==> turn.touch.o !in y.kernel)
  {
    TurnsOf(y, t, fails);
    SendIsFresh(y, t, fails);
  }

  /** A step elsewhere. */
  lemma ElsewhereRuns(y: State, t: Tid, fails: bool, s: Sid, h: Helper)
    requires Safe(y) && Lingers(y, s) && Helps(y, s, h) && CanRun(y, t) && t != GameThread && y.threads[t].s != s
    ensures Advances(y, RunStep(y, t, fails), s, h, Run(t, fails))
  {
    var turn := TurnAt(y, t, fails);
    ElsewhereTurn(y, t, fails, s);
    NextIsFresh(y);
    LeftoversAfter(y, t, y.threads[t].s, turn, s);
    HelperStays(y, t, y.threads[t].s, turn, s, h);
  }

  /** The game thread neither speaks to s nor processes its Disconnect. */
  predicate GameIsOver(pc: Pc, s: Sid) {
    && ((pc.Sending? || pc.Ending?) ==> pc.s != s)
    && (forall i :: 0 <= i < |EffectsOf(pc)| ==> EffectsOf(pc)[i].to != s)
    && (Disconnects(pc) ==> Home(pc) != s)
  }

  /** It has nothing to do for s but to wake a worker. */
  lemma GameTurnFor(pc: Pc, d: Sess, fails: bool, next: OpId, logged: nat, s: Sid)
    requires pc != Idle && Shape(GameThread, pc) && MayTurn(pc, d) && GameIsOver(pc, s)
    ensures var turn := TurnOf(GameThread, pc, d, fails, next, logged);
            && BoundFor(s)(pc) == BoundFor(s)(turn.pc) == 0 && WorkFor(s)(turn.pc) == 0
            && (if pc == Gaming(s, GameWake) then turn.touch == Wake else WorkFor(s)(pc) == 0)
            && (pc.s == s ==> turn.d == d && (pc != Gaming(s, GameWake) ==> turn.touch == NoTouch))
  {
    if EffectsOf(pc) != [] {
      assert EffectsOf(pc)[0].to != s;
    }
  }

  lemma SendIsFresh(y: State, t: Tid, fails: bool)
    requires Safe(y) && CanRun(y, t)
    ensures TurnAt(y, t, fails).touch.StartSend? ==> TurnAt(y, t, fails).touch.o !in y.kernel
  {
    TurnsOf(y, t, fails);
    StartsAreFresh(y, t, y.threads[t].s, TurnAt(y, t, fails));
  }

  lemma LingererIsOver(y: State, s: Sid)
    requires Safe(y) && Lingers(y, s)
    ensures GameIsOver(PcOf(y, GameThread), s)
  {
    LingerFacts(y, s);
    assert GameEnding(y);
  }

  lemma SameLeftovers(y: State, y1: State, s: Sid)
    requires Lingers(y, s) && s in y1.sessions && y1.sessions[s] == y.sessions[s] && Leftovers(y1, s).a == Leftovers(y, s).a
    ensures Leftovers(y1, s).b == Leftovers(y, s).b && Leftovers(y1, s).c == Leftovers(y, s).c ==> RankOf(y1, s) == RankOf(y, s)
    ensures Leftovers(y1, s).b == Leftovers(y, s).b && Leftovers(y1, s).c < Leftovers(y, s).c ==> Below(RankOf(y1, s), RankOf(y, s))
    ensures Lingers(y1, s)
  {
  }

  lemma GameLeftovers(y: State, fails: bool, s: Sid)
    requires y.nextOp !in y.kernel && y.nextOp !in y.queue && Lingers(y, s) && CanRun(y, GameThread)
    requires Shape(GameThread, y.threads[GameThread]) && GameIsOver(y.threads[GameThread], s)
    requires TurnAt(y, GameThread, fails).touch.StartSend? ==> TurnAt(y, GameThread, fails).touch.o !in y.kernel
    ensures var y1 := RunStep(y, GameThread, fails);
            && s in y1.sessions && Lingers(y1, s)
            && if y.threads[GameThread] == Gaming(s, GameWake) then Below(RankOf(y1, s), RankOf(y, s)) else RankOf(y1, s) == RankOf(y, s)
  {
    var pc, turn := y.threads[GameThread], TurnAt(y, GameThread, fails);
    GameTurnFor(pc, y.sessions[pc.s], fails, y.nextOp, |y.log|, s);
    LeftoversAfter(y, GameThread, pc.s, turn, s);
    SameLeftovers(y, RunStep(y, GameThread, fails), s);
  }

  lemma GameRunsOn(y: State, fails: bool, s: Sid, h: Helper)
    requires Safe(y) && Lingers(y, s) && Helps(y, s, h) && CanRun(y, GameThread)
    ensures Advances(y, RunStep(y, GameThread, fails), s, h, Run(GameThread, fails))
  {
    var pc, turn := y.threads[GameThread], TurnAt(y, GameThread, fails);
    LingererIsOver(y, s);
    assert ThreadOk(y, GameThread);
    NextIsFresh(y);
    SendIsFresh(y, GameThread, fails);
    GameLeftovers(y, fails, s);
    if pc != Gaming(s, GameWake) {
      HelperStays(y, GameThread, pc.s, turn, s, h);
    }
  }

  lemma LingererRuns(y: State, t: Tid, fails: bool, s: Sid, h: Helper)
    requires Safe(y) && Lingers(y, s) && Helps(y, s, h) && CanRun(y, t)
    ensures s in RunStep(y, t, fails).sessions && Advances(y, RunStep(y, t, fails), s, h, Run(t, fails))
  {
    if t == GameThread {
      GameRunsOn(y, fails, s, h);
    } else if y.threads[t].s == s {
      LocalRuns(y, t, fails, s);
    } else {
      ElsewhereRuns(y, t, fails, s, h);
    }
  }

  lemma CompleteLeftovers(y: State, o: OpId, ok: bool, data: seq<byte>, s: Sid)
    requires o in y.kernel && o !in y.queue && y.kernel[o].s in y.sessions && s in y.sessions
    ensures var y1 := CompleteStep(y, o, ok, data);
            if y.kernel[o].s != s then Leftovers(y1, s) == Leftovers(y, s)
            else if y.kernel[o].isRecv then Leftovers(y1, s).a < Leftovers(y, s).a
            else Leftovers(y1, s).a == Leftovers(y, s).a && Leftovers(y1, s).b == Leftovers(y, s).b && Leftovers(y1, s).c < Leftovers(y, s).c
  {
    var y1 := CompleteStep(y, o, ok, data);
    SumWithout(y.kernel, RecvsFor(s), o);
    SumWithout(y.kernel, OpWorkFor(s), o);
    SumWith(y.queue, QueueWorkFor(s), o, y1.queue[o]);
  }

  /** An operation on s that completes is less left; any other leaves what there is. */
  lemma LingererCompletes(y: State, o: OpId, ok: bool, data: seq<byte>, s: Sid, h: Helper)
    requires Lingers(y, s) && Helps(y, s, h) && Enabled(y, Complete(o, ok, data)) && o !in y.queue
    ensures Advances(y, CompleteStep(y, o, ok, data), s, h, Complete(o, ok, data))
  {
    CompleteLeftovers(y, o, ok, data, s);
  }

  lemma TakeLeftovers(y: State, n: nat, o: OpId, s: Sid)
    requires Worker(n) in y.threads && y.threads[Worker(n)] == Idle && o in y.queue && y.queue[o].s in y.sessions && s in y.sessions
    ensures var y1 := TakeStep(y, n, o);
            if y.queue[o].s != s then Leftovers(y1, s) == Leftovers(y, s)
            else Leftovers(y1, s).a == Leftovers(y, s).a && Leftovers(y1, s).b == Leftovers(y, s).b && Leftovers(y1, s).c < Leftovers(y, s).c
  {
    var y1 := TakeStep(y, n, o);
    SumWithout(y.queue, QueueWorkFor(s), o);
    SumWith(y.threads, WorkFor(s), Worker(n), y1.threads[Worker(n)]);
    SumWith(y.threads, BoundFor(s), Worker(n), y1.threads[Worker(n)]);
  }

  lemma LingererTakes(y: State, n: nat, o: OpId, s: Sid, h: Helper)
    requires Lingers(y, s) && Helps(y, s, h) && Enabled(y, Take(n, o))
    ensures Advances(y, TakeStep(y, n, o), s, h, Take(n, o))
  {
    TakeLeftovers(y, n, o, s);
  }

  lemma PopLeftovers(y: State, l: Lobby, fx: seq<Effect>, s: Sid)
    requires GameIsFree(y) && y.log[y.done].s in y.sessions && Lingers(y, s)
    ensures Leftovers(Popped(y, l, fx), s) == Leftovers(y, s)
  {
    var y1 := Popped(y, l, fx);
    SumWith(y.threads, WorkFor(s), GameThread, y1.threads[GameThread]);
    SumWith(y.threads, BoundFor(s), GameThread, y1.threads[GameThread]);
  }

  lemma LingererPops(y: State, l: Lobby, fx: seq<Effect>, s: Sid, h: Helper, env: Env)
    requires Safe(y) && GameIsFree(y) && y.log[y.done].s in y.sessions && Lingers(y, s) && Helps(y, s, h)
    ensures Advances(y, Popped(y, l, fx), s, h, Pop(env))
  {
    NextJob(y);
    PopLeftovers(y, l, fx, s);
  }

  lemma AcceptLeftovers(y: State, r: Sid, s: Sid)
    requires Acceptor in y.threads && y.threads[Acceptor] == Idle && s in y.sessions && r !in y.sessions
    ensures Leftovers(AcceptNew(y, r), s) == Leftovers(y, s)
  {
    var y1 := AcceptNew(y, r);
    SumWith(y.threads, WorkFor(s), Acceptor, y1.threads[Acceptor]);
    SumWith(y.threads, BoundFor(s), Acceptor, y1.threads[Acceptor]);
  }

  lemma LingererAccepts(y: State, r: Sid, s: Sid, h: Helper)
    requires Enabled(y, Accept(r)) && Lingers(y, s) && Helps(y, s, h)
    ensures Advances(y, AcceptNew(y, r), s, h, Accept(r))
  {
    AcceptLeftovers(y, r, s);
  }

  // ---- every step, and in the end -----------------------------------------------------------------

  lemma RunAdvances(y: State, t: Tid, fails: bool, s: Sid, h: Helper)
    requires Safe(y) && CanRun(y, t) && s in y.sessions && OneHelps(y.sessions[s]) && Helps(y, s, h)
    ensures Advances(y, RunStep(y, t, fails), s, h, Run(t, fails))
  {
    if h == OfThread(t) {
      HelperRuns(y, t, fails, s);
    } else {
      OthersKeepStage(y, t, fails, s);
      OthersRun(y, t, fails, s, h);
    }
  }

  lemma StageAdvances(y: State, a: Action, s: Sid, h: Helper)
    requires Safe(y) && Enabled(y, a) && s in y.sessions && OneHelps(y.sessions[s]) && Helps(y, s, h)
    ensures s in Next(y, a).sessions && Advances(y, Next(y, a), s, h, a)
  {
    match a
    case Accept(r) => OthersAccept(y, r, s, h);
    case Run(t, fails) => RunAdvances(y, t, fails, s, h);
    case Complete(o, ok, data) => KernelCompletes(y, o, ok, data, s, h);
    case Take(n, o) => WorkerTakes(y, n, o, s, h);
    case Pop(env) => GamePops(y, Step(y.lobby, NextJobOf(y), env).lobby, Step(y.lobby, NextJobOf(y), env).effects, s, h, env);
  }

  lemma LingererAdvances(y: State, a: Action, s: Sid, h: Helper)
    requires Safe(y) && Enabled(y, a) && Lingers(y, s) && Helps(y, s, h)
    ensures s in Next(y, a).sessions && Advances(y, Next(y, a), s, h, a)
  {
    match a
    case Accept(r) => LingererAccepts(y, r, s, h);
    case Run(t, fails) => LingererRuns(y, t, fails, s, h);
    case Complete(o, ok, data) =>
      assert KernelPlaced(y, o);
      LingererCompletes(y, o, ok, data, s, h);
    case Take(n, o) => LingererTakes(y, n, o, s, h);
    case Pop(env) => LingererPops(y, Step(y.lobby, NextJobOf(y), env).lobby, Step(y.lobby, NextJobOf(y), env).effects, s, h, env);
  }

  /** Whatever step is taken anywhere, the deletion of s comes nearer, or as near as it was with its helper in place. */
  lemma StepAdvances(y: State, a: Action, s: Sid, h: Helper)
    requires Safe(y) && Enabled(y, a) && s in y.sessions && Helps(y, s, h)
    ensures Advances(y, Next(y, a), s, h, a)
  {
    if OneHelps(y.sessions[s]) {
      StageAdvances(y, a, s, h);
    } else {
      LingererAdvances(y, a, s, h);
    }
  }

  /** A session neither open nor deleted has a helper, who has a step to take unless it is the game thread at a
      job that dangles. */
  lemma SomeoneHelps(y: State, s: Sid) returns (h: Helper)
    requires Safe(y) && s in y.sessions && y.sessions[s].state != Connected && y.sessions[s].deletions == 0 && !IsBlocked(y)
    ensures Helps(y, s, h) && Awaits(y, h)
  {
    var d := y.sessions[s];
    assert SessionEnding(y, s) && SessionDoom(y, s) && SessionLogged(y, s);
    match d.ending
    case ClosingBy(t) => h := OfThread(t);
    case JobQueued => h := if y.threads[GameThread] == Idle then OfGame else OfThread(GameThread);
    case Processing => h := OfThread(GameThread);
    case CleanedUp =>
      if d.destroyer.By? {
        h := OfThread(d.destroyer.t);
      } else {
        h := SomeoneVisits(y, s);
      }
  }

  lemma SomeoneVisits(y: State, s: Sid) returns (h: Helper)
    requires Safe(y) && Lingers(y, s)
    ensures Helps(y, s, h) && Awaits(y, h)
  {
    LingerFacts(y, s);
    assert Watched(y, s);
    if o :| o in y.kernel && y.kernel[o].s == s {
      h := OfKernel(o);
    } else if o :| o in y.queue && y.queue[o].s == s {
      h := OfPort(o);
    } else if t :| t in y.threads && Visits(t, y.threads[t]) && y.threads[t].s == s {
      h := OfThread(t);
    } else {
      h := OfThread(GameThread);
    }
  }

  /** By the time the helper has had its turn, the rank has fallen. */
  lemma {:induction false} RankFalls(ys: nat -> State, actions: nat -> Action, i: nat, j: nat, s: Sid, h: Helper) returns (k: nat)
    requires IsEndless(ys, actions) && Safe(ys(0)) && i <= j && IsBy(actions(j), h)
    requires s in ys(i).sessions && Helps(ys(i), s, h)
    ensures i < k && s in ys(k).sessions && Below(RankOf(ys(k), s), RankOf(ys(i), s))
    decreases j - i
  {
    k := i + 1;
    EndlessIsSafe(ys, actions, i);
    StepAdvances(ys(i), actions(i), s, h);
    if !Below(RankOf(ys(k), s), RankOf(ys(i), s)) {
      k := RankFalls(ys, actions, i + 1, j, s, h);
    }
  }

  lemma RankIsOpen(y: State, s: Sid)
    requires Safe(y) && s in y.sessions
    ensures y.sessions[s].state == Connected <==> RankOf(y, s).phase == 5
    ensures RankOf(y, s).phase <= 5 && y.sessions[s].deletions <= 1
  {
    assert SessionEnding(y, s) && SessionDoom(y, s);
  }

  /** Every session that is no longer open is deleted in the end, once, however much traffic goes on meanwhile,
      unless a job dangles before that. */
  lemma {:induction false} ClosedIsDeleted(ys: nat -> State, actions: nat -> Action, i: nat, s: Sid) returns (j: nat)
    requires IsEndless(ys, actions) && Safe(ys(0)) && IsFair(ys, actions)
    requires s in ys(i).sessions && ys(i).sessions[s].state != Connected
    ensures j >= i && ((s in ys(j).sessions && ys(j).sessions[s].deletions == 1) || IsBlocked(ys(j)))
    decreases RankOf(ys(i), s).phase, RankOf(ys(i), s).a, RankOf(ys(i), s).b, RankOf(ys(i), s).c
  {
    j := i;
    EndlessIsSafe(ys, actions, i);
    RankIsOpen(ys(i), s);
    if ys(i).sessions[s].deletions != 1 && !IsBlocked(ys(i)) {
      var h := SomeoneHelps(ys(i), s);
      assert Happens(actions, h, i);
      var n: nat :| n >= i && IsBy(actions(n), h);
      var k := RankFalls(ys, actions, i, n, s, h);
      EndlessIsSafe(ys, actions, k);
      RankIsOpen(ys(k), s);
      j := ClosedIsDeleted(ys, actions, k, s);
    }
  }
}
