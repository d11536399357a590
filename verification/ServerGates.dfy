/** What a session that is no longer open is spared, and when a session is in the registry. */
module ServerGates {
  import opened Bytes
  import opened Framing
  import opened Protocol
  import opened Lobby
  import opened Session
  import R = RingBuffer
  import opened Server
  import opened ServerShape
  import opened ServerEnding
  import opened ServerContexts
  import opened ServerDoom
  import opened ServerLog
  import opened ServerOrder
  import opened ServerTurns
  import opened ServerSafe
  import opened ServerTheorems
  import opened ServerDuty
  import opened ServerReasons

  // ---- nothing new begins on a session that is no longer open -------------------------------------

  /** Past a check that s is open: between it and the call of the kernel, or taking in what has been received. */
  predicate IsPassing(pc: Pc, s: Sid) {
    match pc
    case Posting(r, at) => r == s && (at.PostCas? || at.PostAdd? || at.PostCall?)
    case Receiving(r, at, _) => r == s && at.RecvFill?
    case Scanning(r, _) => r == s
    case Sending(r, at, ret) => r == s && (at.SendPost? || at.SendAdd? || at.SendCall? || InLoop(ret))
    case Ending(r, _, ret) => r == s && InLoop(ret)
    case _ => false
  }

  /** The step passes no check, starts nothing and hands nothing over. */
  predicate PassesNothing(turn: Turn, s: Sid) {
    && !IsPassing(turn.pc, s) && !turn.touch.StartRecv? && !turn.touch.StartSend?
    && !(turn.touch.Push? && turn.touch.job.Deliver?)
  }

  lemma PostPassesNothing(t: Tid, s: Sid, at: PostRecvAt, d: Sess, fails: bool, next: OpId)
    requires d.state != Connected && (at.PostGate? || at.PostUndoFlag? || at.PostUndoAdd?)
    ensures PassesNothing(PostStep(t, s, at, d, fails, next), s)
  {
    match at
    case PostGate =>
    case PostUndoFlag =>
    case PostUndoAdd =>
  }

  lemma SendPassesNothing(s: Sid, at: SendAt, ret: Ret, d: Sess, fails: bool, next: OpId)
    requires d.state != Connected && (at.SendGate? || at.SendUndo? || at.SendFree?) && !InLoop(ret)
    ensures PassesNothing(SendStep(s, at, ret, d, fails, next), s)
  {
    match at
    case SendGate(_) =>
    case SendUndo(_) =>
    case SendFree(_) =>
  }

  lemma ClosePassesNothing(t: Tid, s: Sid, at: CloseAt, ret: Ret, d: Sess, logged: nat, r: Sid)
    requires s == r ==> !InLoop(ret)
    ensures PassesNothing(CloseStep(t, s, at, ret, d, logged), r)
  {
    match at
    case CloseCas =>
    case CloseIssue =>
    case CloseSocket =>
    case CloseStore =>
    case ClosePush =>
  }

  lemma RecvPassesNothing(s: Sid, at: RecvAt, ok: bool, d: Sess)
    requires d.state != Connected && !at.RecvFill?
    ensures PassesNothing(RecvStep(s, at, ok, d), s)
  {
    match at
    case RecvFlag =>
    case RecvDrop =>
    case RecvCheck =>
    case RecvGate =>
  }

  lemma DestroyPassesNothing(t: Tid, s: Sid, at: DestroyAt, d: Sess)
    ensures PassesNothing(DestroyStep(t, s, at, d), s)
  {
    match at
    case TdState =>
    case TdCleanup =>
    case TdPending =>
    case TdCas =>
    case TdRemove =>
    case TdDelete =>
  }

  lemma AcceptPassesNothing(s: Sid, at: AcceptAt, d: Sess, logged: nat)
    ensures PassesNothing(AcceptStep(s, at, d, logged), s)
  {
    match at
    case AccRegister =>
    case AccAnnounce =>
    case AccAssociate =>
  }

  lemma SentPassesNothing(s: Sid, at: SentAt, o: OpId, ok: bool, d: Sess)
    ensures PassesNothing(SentStep(s, at, o, ok, d), s)
  {
    match at
    case SentDrop =>
    case SentFree =>
    case SentCheck =>
  }

  lemma GamePassesNothing(s: Sid, at: GameAt, d: Sess)
    ensures PassesNothing(GameStep(s, at, d), s)
  {
    match at
    case GameRun(_, _) =>
    case GameMark =>
    case GameWake =>
  }

  lemma TurnPassesNothing(t: Tid, pc: Pc, d: Sess, fails: bool, next: OpId, logged: nat)
    requires pc != Idle && MayTurn(pc, d) && d.state != Connected && !IsPassing(pc, pc.s)
    ensures PassesNothing(TurnOf(t, pc, d, fails, next, logged), pc.s)
  {
    match pc
    case Accepting(s, at) => AcceptPassesNothing(s, at, d, logged);
    case Posting(s, at) => PostPassesNothing(t, s, at, d, fails, next);
    case Receiving(s, at, ok) => RecvPassesNothing(s, at, ok, d);
    case Sent(s, at, o, ok) => SentPassesNothing(s, at, o, ok, d);
    case Ending(s, at, ret) => ClosePassesNothing(t, s, at, ret, d, logged, s);
    case Sending(s, at, ret) => SendPassesNothing(s, at, ret, d, fails, next);
    case Destroying(s, at) => DestroyPassesNothing(t, s, at, d);
    case Gaming(s, at) => GamePassesNothing(s, at, d);
  }

  /** A step at another session passes the checks of its own at most. */
  lemma AfarPassesNothing(t: Tid, pc: Pc, d: Sess, fails: bool, next: OpId, logged: nat, s: Sid)
    requires pc != Idle && MayTurn(pc, d) && pc.s != s && Shape(t, pc) && ShapeLocal(t, pc, TurnOf(t, pc, d, fails, next, logged))
    ensures !IsPassing(TurnOf(t, pc, d, fails, next, logged).pc, s)
  {
    match pc
    case Gaming(_, _) =>
    case Ending(r, at, ret) => ClosePassesNothing(t, r, at, ret, d, logged, s);
    case Sending(r, at, ret) => SendElsewhere(r, at, ret, d, fails, next, s);
    case _ =>
  }

  /** s is no longer open, and nobody is past a check of that any more. */
  ghost predicate IsShutOff(y: State, s: Sid) {
    s in y.sessions && y.sessions[s].state != Connected && forall t :: !IsPassing(PcOf(y, t), s)
  }

  /** No operation on s has come to the kernel, and no packet of it to the job queue. */
  ghost predicate NothingBegun(y: State, y1: State, s: Sid) {
    && (forall o :: o in y1.kernel && y1.kernel[o].s == s ==> o in y.kernel && y.kernel[o] == y1.kernel[o])
    && Handed(y1.log, s) == Handed(y.log, s)
  }

  lemma RunPassesNothing(y: State, t: Tid, fails: bool, s: Sid)
    requires Safe(y) && CanRun(y, t) && IsShutOff(y, s)
    ensures var turn := TurnAt(y, t, fails);
            && !IsPassing(turn.pc, s) && (y.threads[t].s == s ==> PassesNothing(turn, s))
            && (turn.touch.Push? ==> turn.touch.job.s == y.threads[t].s)
  {
    var pc, d := y.threads[t], y.sessions[y.threads[t].s];
    assert ThreadOk(y, t) && !IsPassing(PcOf(y, t), s);
    TurnsOf(y, t, fails);
    if pc.s == s {
      TurnPassesNothing(t, pc, d, fails, y.nextOp, |y.log|);
    } else {
      AfarPassesNothing(t, pc, d, fails, y.nextOp, |y.log|, s);
    }
  }

  lemma AppliedBeginsNothing(y: State, t: Tid, r: Sid, turn: Turn, s: Sid)
    requires IsShutOff(y, s) && !IsPassing(turn.pc, s) && (r == s ==> PassesNothing(turn, s))
    requires turn.touch.Push? ==> turn.touch.job.s == r
    ensures var y1 := Apply(y, t, r, turn); (forall u :: !IsPassing(PcOf(y1, u), s)) && NothingBegun(y, y1, s)
  {
    forall u ensures !IsPassing(PcOf(Apply(y, t, r, turn), u), s) { assert !IsPassing(PcOf(y, u), s); }
    HandedAfter(y.log, turn.touch, s);
  }

  lemma StepBeginsNothing(y: State, a: Action, s: Sid)
    requires Safe(y) && Enabled(y, a) && IsShutOff(y, s)
    ensures IsShutOff(Next(y, a), s) && NothingBegun(y, Next(y, a), s)
  {
    StaysClosed(y, a, s);
    if a.Run? {
      RunPassesNothing(y, a.t, a.fails, s);
      AppliedBeginsNothing(y, a.t, y.threads[a.t].s, TurnAt(y, a.t, a.fails), s);
    } else {
      OthersPassNothing(y, a, s);
    }
  }

  lemma OthersPassNothing(y: State, a: Action, s: Sid)
    requires Enabled(y, a) && !a.Run? && forall t :: !IsPassing(PcOf(y, t), s)
    ensures (forall t :: !IsPassing(PcOf(Next(y, a), t), s)) && NothingBegun(y, Next(y, a), s)
  {
    forall u ensures !IsPassing(PcOf(Next(y, a), u), s) { assert !IsPassing(PcOf(y, u), s); }
  }

  lemma OneStepBeginsNothing(ys: seq<State>, actions: seq<Action>, k: nat, s: Sid)
    requires IsRun(ys, actions) && k < |actions| && IsShutOff(ys[k], s)
    ensures IsShutOff(ys[k + 1], s) && NothingBegun(ys[k], ys[k + 1], s)
  {
    RunIsSafe(ys, actions, k);
    StepBeginsNothing(ys[k], actions[k], s);
  }

  lemma OneStepMore(ys: seq<State>, actions: seq<Action>, i: nat, k: nat, s: Sid)
    requires IsRun(ys, actions) && i <= k < |actions| && IsShutOff(ys[k], s) && NothingBegun(ys[i], ys[k], s)
    ensures IsShutOff(ys[k + 1], s) && NothingBegun(ys[i], ys[k + 1], s)
  {
    OneStepBeginsNothing(ys, actions, k, s);
    NothingAndNothing(ys[i], ys[k], ys[k + 1], s);
  }

  /** Once a session is no longer open and nobody is past a check of that, no receive and no send is ever started on
      it, and no packet of it is handed over, whatever receives of it are still dequeued. */
  lemma {:induction false} ShutOffForGood(ys: seq<State>, actions: seq<Action>, i: nat, j: nat, s: Sid)
    requires IsRun(ys, actions) && i <= j < |ys| && IsShutOff(ys[i], s)
    ensures IsShutOff(ys[j], s) && NothingBegun(ys[i], ys[j], s)
  {
    if i < j {
      ShutOffForGood(ys, actions, i, j - 1, s);
      OneStepMore(ys, actions, i, j - 1, s);
    }
  }

  lemma NothingAndNothing(y: State, y1: State, y2: State, s: Sid)
    requires NothingBegun(y, y1, s) && NothingBegun(y1, y2, s)
    ensures NothingBegun(y, y2, s)
  {
  }

  // ---- the registry -------------------------------------------------------------------------------

  /** The session has been taken out of the registry: it is deleted, or a thread is about to delete it. */
  ghost predicate IsRemoved(y: State, s: Sid) {
    s in y.sessions && (y.sessions[s].deletions > 0 || exists t :: PcOf(y, t) == Destroying(s, TdDelete))
  }

  ghost predicate RegistryOk(y: State, s: Sid) {
    s in y.sessions ==>
      (y.sessions[s].registered <==> PcOf(y, Acceptor) != Accepting(s, AccRegister) && !IsRemoved(y, s))
  }

  /** A send context is made for a session that is not closed. */
  predicate MakesForTheLiving(d: Sess, turn: Turn) {
    turn.touch.NewContext? ==> d.state != Closed
  }

  /** A routine that is not about the registry. */
  predicate LeavesRegistry(d: Sess, turn: Turn) {
    && MakesForTheLiving(d, turn) && turn.d.registered == d.registered && turn.d.deletions == d.deletions
    && !(turn.pc.Destroying? && turn.pc.td == TdDelete) && !(turn.pc.Accepting? && turn.pc.acc == AccRegister)
  }

  lemma PostLeavesRegistry(t: Tid, s: Sid, at: PostRecvAt, d: Sess, fails: bool, next: OpId)
    ensures LeavesRegistry(d, PostStep(t, s, at, d, fails, next))
  {
    match at
    case PostGate => GateLeavesRegistry(t, s, d, fails, next);
    case PostCas => CasPostLeavesRegistry(t, s, d, fails, next);
    case PostAdd =>
    case PostCall =>
    case PostUndoFlag =>
    case PostUndoAdd =>
  }

  lemma GateLeavesRegistry(t: Tid, s: Sid, d: Sess, fails: bool, next: OpId)
    ensures LeavesRegistry(d, PostStep(t, s, PostGate, d, fails, next))
  {
    if d.state != Connected { } else { }
  }

  lemma CasPostLeavesRegistry(t: Tid, s: Sid, d: Sess, fails: bool, next: OpId)
    ensures LeavesRegistry(d, PostStep(t, s, PostCas, d, fails, next))
  {
    if d.recvPosted { } else { }
  }

  lemma RecvLeavesRegistry(s: Sid, at: RecvAt, ok: bool, d: Sess)
    ensures LeavesRegistry(d, RecvStep(s, at, ok, d))
  {
    match at
    case RecvFlag =>
    case RecvDrop =>
    case RecvCheck => if !ok || d.buffer == [] { } else { }
    case RecvGate => if d.state != Connected { } else { }
    case RecvFill => if |d.ring| + |d.buffer| > R.RING_SIZE { } else { }
  }

  lemma FrameLeavesRegistry(s: Sid, at: FrameAt, d: Sess)
    requires at.SkipBody? ==> |at.p.body| <= |d.ring|
    ensures LeavesRegistry(d, FrameStep(s, at, d))
  {
    match at
    case FrameScan => if Waiting(d.ring) { } else if Framing.Malformed(d.ring) { } else { }
    case ProcGate(_) =>
    case ProcPush(_) =>
    case SkipBody(_) =>
  }

  lemma CasLeavesRegistry(t: Tid, s: Sid, ret: Ret, d: Sess, logged: nat)
    ensures LeavesRegistry(d, CloseStep(t, s, CloseCas, ret, d, logged))
  {
    if d.state == Connected { } else { }
  }

  lemma CloseLeavesRegistry(t: Tid, s: Sid, at: CloseAt, ret: Ret, d: Sess, logged: nat)
    ensures LeavesRegistry(d, CloseStep(t, s, at, ret, d, logged))
  {
    match at
    case CloseCas => CasLeavesRegistry(t, s, ret, d, logged);
    case CloseIssue =>
    case CloseSocket =>
    case CloseStore =>
    case ClosePush =>
  }

  lemma SendLeavesRegistry(s: Sid, at: SendAt, ret: Ret, d: Sess, fails: bool, next: OpId)
    ensures LeavesRegistry(d, SendStep(s, at, ret, d, fails, next))
  {
    match at
    case SendGate(_) =>
    case SendPost(_) =>
    case SendAdd(_, _) =>
    case SendCall(_, _) =>
    case SendUndo(_) =>
    case SendFree(_) =>
  }

  lemma SentLeavesRegistry(s: Sid, at: SentAt, o: OpId, ok: bool, d: Sess)
    ensures LeavesRegistry(d, SentStep(s, at, o, ok, d))
  {
    match at
    case SentDrop =>
    case SentFree =>
    case SentCheck =>
  }

  lemma GameLeavesRegistry(s: Sid, at: GameAt, d: Sess)
    ensures LeavesRegistry(d, GameStep(s, at, d))
  {
    match at
    case GameRun(_, _) =>
    case GameMark =>
    case GameWake =>
  }

  /** A session enters the registry at one point and leaves it at another. */
  predicate MovesRegistry(pc: Pc, d: Sess, turn: Turn) {
    match pc
    case Accepting(_, at) =>
      && MakesForTheLiving(d, turn) && turn.d.deletions == d.deletions && !turn.pc.Destroying? && !(turn.pc.Accepting? && turn.pc.acc == AccRegister)
      && turn.d.registered == (at == AccRegister || d.registered)
    case Destroying(s, at) =>
      && MakesForTheLiving(d, turn) && turn.d.registered == (at != TdRemove && d.registered)
      && turn.d.deletions == d.deletions + (if at == TdDelete then 1 else 0)
      && (turn.pc.Destroying? && turn.pc.td == TdDelete <==> at == TdRemove) && !turn.pc.Accepting?
      && (at == TdRemove ==> turn.pc == Destroying(s, TdDelete))
    case _ => LeavesRegistry(d, turn)
  }

  lemma DestroyMovesRegistry(t: Tid, s: Sid, at: DestroyAt, d: Sess)
    ensures MovesRegistry(Destroying(s, at), d, DestroyStep(t, s, at, d))
  {
    match at
    case TdState =>
    case TdCleanup =>
    case TdPending =>
    case TdCas =>
    case TdRemove =>
    case TdDelete =>
  }

  lemma AcceptMovesRegistry(s: Sid, at: AcceptAt, d: Sess, logged: nat)
    ensures MovesRegistry(Accepting(s, at), d, AcceptStep(s, at, d, logged))
  {
    match at
    case AccRegister =>
    case AccAnnounce =>
    case AccAssociate =>
  }

  lemma TurnMovesRegistry(t: Tid, pc: Pc, d: Sess, fails: bool, next: OpId, logged: nat)
    requires pc != Idle && MayTurn(pc, d)
    ensures MovesRegistry(pc, d, TurnOf(t, pc, d, fails, next, logged))
  {
    match pc
    case Accepting(s, at) => AcceptMovesRegistry(s, at, d, logged);
    case Posting(s, at) => PostLeavesRegistry(t, s, at, d, fails, next);
    case Receiving(s, at, ok) => RecvLeavesRegistry(s, at, ok, d);
    case Scanning(s, at) => FrameLeavesRegistry(s, at, d);
    case Sent(s, at, o, ok) => SentLeavesRegistry(s, at, o, ok, d);
    case Ending(s, at, ret) => CloseLeavesRegistry(t, s, at, ret, d, logged);
    case Sending(s, at, ret) => SendLeavesRegistry(s, at, ret, d, fails, next);
    case Destroying(s, at) => DestroyMovesRegistry(t, s, at, d);
    case Gaming(s, at) => GameLeavesRegistry(s, at, d);
  }

  /** A session that is being registered has not been removed, and two threads do not remove it. */
  lemma RegisteredByOne(y: State, t: Tid, u: Tid)
    requires Safe(y) && t in y.threads && y.threads[t] != Idle && t != u
    requires (y.threads[t].Accepting? && y.threads[t].acc == AccRegister) || (y.threads[t].Destroying? && IsDeleting(y.threads[t]))
    ensures PcOf(y, u) != Destroying(y.threads[t].s, TdDelete) && PcOf(y, u) != Accepting(y.threads[t].s, AccRegister)
    ensures y.threads[t].s in y.sessions && y.sessions[y.threads[t].s].deletions == 0
  {
    var s := y.threads[t].s;
    assert ThreadOk(y, t) && ThreadDoom(y, t) && SessionDoom(y, s) && ThreadLogged(y, t) && SessionLogged(y, s) && SessionEnding(y, s);
    assert ThreadOk(y, u) && ThreadDoom(y, u) && ThreadLogged(y, u);
  }

  lemma OthersRemove(y: State, t: Tid, r: Sid, turn: Turn, s: Sid, u: Tid)
    requires u != t
    ensures PcOf(Apply(y, t, r, turn), u) == PcOf(y, u)
  {
  }

  /** The registry after a step at s: a removal is this thread's, or was there before. */
  lemma RemovedAfter(y: State, t: Tid, s: Sid, turn: Turn)
    requires t in y.threads && y.threads[t] != Idle && y.threads[t].s == s && s in y.sessions
    requires MovesRegistry(y.threads[t], y.sessions[s], turn)
    ensures var pc := y.threads[t];
            IsRemoved(Apply(y, t, s, turn), s) <==> IsRemoved(y, s) || (pc.Destroying? && pc.td == TdRemove)
  {
    var y1, pc := Apply(y, t, s, turn), y.threads[t];
    if u :| u != t && PcOf(y, u) == Destroying(s, TdDelete) {
      assert PcOf(y1, u) == Destroying(s, TdDelete);
    }
    if u :| u != t && PcOf(y1, u) == Destroying(s, TdDelete) {
      assert PcOf(y, u) == Destroying(s, TdDelete);
    }
    assert PcOf(y1, t) == turn.pc && PcOf(y, t) == pc;
  }

  lemma RegisteringIsFirst(y: State, s: Sid)
    requires Safe(y) && PcOf(y, Acceptor) == Accepting(s, AccRegister)
    ensures !IsRemoved(y, s)
  {
    forall u ensures PcOf(y, u) != Destroying(s, TdDelete) {
      if u != Acceptor {
        RegisteredByOne(y, Acceptor, u);
      }
    }
    assert ThreadOk(y, Acceptor) && ThreadLogged(y, Acceptor) && SessionLogged(y, s) && SessionDoom(y, s) && SessionEnding(y, s);
  }

  /** The registry after a step at s that fits what else is known of s. */
  lemma ItsRegistryAfter(y: State, t: Tid, s: Sid, turn: Turn)
    requires t in y.threads && y.threads[t] != Idle && y.threads[t].s == s && s in y.sessions && RegistryOk(y, s)
    requires MovesRegistry(y.threads[t], y.sessions[s], turn)
    requires y.threads[t].Accepting? ==> t == Acceptor
    requires y.threads[t] == Accepting(s, AccRegister) ==> !IsRemoved(y, s)
    requires y.threads[t] == Destroying(s, TdRemove) ==> t != Acceptor && PcOf(y, Acceptor) != Accepting(s, AccRegister)
    ensures RegistryOk(Apply(y, t, s, turn), s)
  {
    RemovedAfter(y, t, s, turn);
  }

  lemma RunKeepsItsRegistry(y: State, t: Tid, fails: bool)
    requires Safe(y) && CanRun(y, t) && RegistryOk(y, y.threads[t].s)
    ensures RegistryOk(RunStep(y, t, fails), y.threads[t].s)
  {
    var pc := y.threads[t];
    assert ThreadOk(y, t);
    TurnMovesRegistry(t, pc, y.sessions[pc.s], fails, y.nextOp, |y.log|);
    if pc == Accepting(pc.s, AccRegister) {
      RegisteringIsFirst(y, pc.s);
    } else if pc == Destroying(pc.s, TdRemove) {
      RegisteredByOne(y, t, Acceptor);
    }
    ItsRegistryAfter(y, t, pc.s, TurnAt(y, t, fails));
  }

  lemma AppliedRegistry(y: State, t: Tid, turn: Turn, s: Sid)
    requires t in y.threads && y.threads[t] != Idle && y.threads[t].s in y.sessions && y.threads[t].s != s && RegistryOk(y, s)
    requires MovesRegistry(y.threads[t], y.sessions[y.threads[t].s], turn)
    ensures RegistryOk(Apply(y, t, y.threads[t].s, turn), s)
  {
    var y1 := Apply(y, t, y.threads[t].s, turn);
    if u :| PcOf(y, u) == Destroying(s, TdDelete) {
      assert u != t && PcOf(y1, u) == Destroying(s, TdDelete);
    }
    if u :| PcOf(y1, u) == Destroying(s, TdDelete) {
      assert u != t && PcOf(y, u) == Destroying(s, TdDelete);
    }
    if t == Acceptor {
      assert PcOf(y1, Acceptor) == turn.pc;
    }
  }

  lemma RunKeepsRegistry(y: State, t: Tid, fails: bool, s: Sid)
    requires Safe(y) && CanRun(y, t) && RegistryOk(y, s)
    ensures RegistryOk(RunStep(y, t, fails), s)
  {
    var pc := y.threads[t];
    if pc.s == s {
      RunKeepsItsRegistry(y, t, fails);
    } else {
      TurnMovesRegistry(t, pc, y.sessions[pc.s], fails, y.nextOp, |y.log|);
      AppliedRegistry(y, t, TurnAt(y, t, fails), s);
    }
  }

  /** A thread that was idle goes somewhere else, and the registry is as it was. */
  lemma StartKeepsRegistry(y: State, y1: State, t: Tid, s: Sid)
    requires RegistryOk(y, s) && t in y.threads && y.threads[t] == Idle && t in y1.threads && y1.threads == y.threads[t := y1.threads[t]]
    requires s in y.sessions && s in y1.sessions
    requires y1.sessions[s].registered == y.sessions[s].registered && y1.sessions[s].deletions == y.sessions[s].deletions
    requires y1.threads[t] != Destroying(s, TdDelete) && y1.threads[t] != Accepting(s, AccRegister)
    ensures RegistryOk(y1, s)
  {
    if u :| PcOf(y, u) == Destroying(s, TdDelete) {
      assert PcOf(y1, u) == Destroying(s, TdDelete);
    }
    if u :| PcOf(y1, u) == Destroying(s, TdDelete) {
      assert PcOf(y, u) == Destroying(s, TdDelete);
    }
  }

  lemma AcceptKeepsRegistry(y: State, r: Sid, s: Sid)
    requires Safe(y) && Enabled(y, Accept(r)) && RegistryOk(y, s)
    ensures RegistryOk(AcceptNew(y, r), s)
  {
    if s == r {
      assert PcOf(AcceptNew(y, r), Acceptor) == Accepting(s, AccRegister);
    } else if s in y.sessions {
      StartKeepsRegistry(y, AcceptNew(y, r), Acceptor, s);
    }
  }

  lemma CompleteKeepsRegistry(y: State, o: OpId, ok: bool, data: seq<byte>, s: Sid)
    requires Enabled(y, Complete(o, ok, data)) && RegistryOk(y, s)
    ensures RegistryOk(CompleteStep(y, o, ok, data), s)
  {
    var y1 := CompleteStep(y, o, ok, data);
    assert forall u :: PcOf(y1, u) == PcOf(y, u);
  }

  lemma StepKeepsRegistry(y: State, a: Action, s: Sid)
    requires Safe(y) && Enabled(y, a) && RegistryOk(y, s)
    ensures RegistryOk(Next(y, a), s)
  {
    match a
    case Accept(r) => AcceptKeepsRegistry(y, r, s);
    case Run(t, fails) => RunKeepsRegistry(y, t, fails, s);
    case Complete(o, ok, data) => CompleteKeepsRegistry(y, o, ok, data, s);
    case Take(n, o) => TakeKeepsRegistry(y, n, o, s);
    case Pop(env) => PopKeepsRegistry(y, env, s);
  }

  lemma TakeKeepsRegistry(y: State, n: nat, o: OpId, s: Sid)
    requires Enabled(y, Take(n, o)) && RegistryOk(y, s)
    ensures RegistryOk(TakeStep(y, n, o), s)
  {
    if s in y.sessions {
      StartKeepsRegistry(y, TakeStep(y, n, o), Worker(n), s);
    }
  }

  lemma PopKeepsRegistry(y: State, env: Env, s: Sid)
    requires Enabled(y, Pop(env)) && RegistryOk(y, s)
    ensures RegistryOk(PopStep(y, env), s)
  {
    if s in y.sessions {
      StartKeepsRegistry(y, PopStep(y, env), GameThread, s);
    }
  }

  lemma OneStepKeepsRegistry(ys: seq<State>, actions: seq<Action>, k: nat, s: Sid)
    requires IsRun(ys, actions) && k < |actions| && RegistryOk(ys[k], s)
    ensures RegistryOk(ys[k + 1], s)
  {
    RunIsSafe(ys, actions, k);
    StepKeepsRegistry(ys[k], actions[k], s);
  }

  /** In every state of every run a session is in the registry from when the accept thread has put it there until a
      thread that has won the right to delete it takes it out. */
  lemma {:induction false} RegistryIsExact(ys: seq<State>, actions: seq<Action>, i: nat, s: Sid)
    requires IsRun(ys, actions) && i < |ys|
    ensures RegistryOk(ys[i], s)
  {
    if i > 0 {
      RegistryIsExact(ys, actions, i - 1, s);
      OneStepKeepsRegistry(ys, actions, i - 1, s);
    }
  }

  // ---- send contexts ------------------------------------------------------------------------------

  lemma RunMakesForTheLiving(y: State, t: Tid, fails: bool, o: OpId)
    requires Safe(y) && CanRun(y, t)
    ensures o in RunStep(y, t, fails).contexts ==> o in y.contexts || y.sessions[y.threads[t].s].state != Closed
  {
    var pc := y.threads[t];
    TurnsOf(y, t, fails);
    TurnMovesRegistry(t, pc, y.sessions[pc.s], fails, y.nextOp, |y.log|);
    assert ThreadPlaced(y, t);
  }

  lemma OthersMakeNothing(y: State, a: Action, o: OpId)
    requires Safe(y) && Enabled(y, a) && !a.Run? && o in Next(y, a).contexts
    ensures o in y.contexts
  {
    match a
    case Accept(_) =>
    case Complete(p, _, _) => assert KernelPlaced(y, p);
    case Take(_, p) => assert QueuePlaced(y, p);
    case Pop(_) =>
  }

  /** In every run a send context is made only for a session that is not closed. */
  lemma ContextsForTheLiving(ys: seq<State>, actions: seq<Action>, i: nat, o: OpId)
    requires IsRun(ys, actions) && i < |actions| && o in ys[i + 1].contexts && o !in ys[i].contexts
    ensures actions[i].Run? && actions[i].t in ys[i].threads && ys[i].threads[actions[i].t] != Idle
    ensures var s := ys[i].threads[actions[i].t].s; s in ys[i].sessions && ys[i].sessions[s].state != Closed
  {
    RunIsSafe(ys, actions, i);
    if actions[i].Run? {
      RunMakesForTheLiving(ys[i], actions[i].t, actions[i].fails, o);
    } else {
      OthersMakeNothing(ys[i], actions[i], o);
    }
  }
}
