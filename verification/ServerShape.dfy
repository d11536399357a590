/** Which program points belong to which thread, what each of them holds, and that threads stay in shape. */
module ServerShape {
  import opened Bytes
  import opened Framing
  import opened Protocol
  import opened Lobby
  import opened Session
  import opened Server

  // ---- what a program point holds -----------------------------------------------------------------

  /** The returns of a close or send made inside the framing loop. */
  predicate InLoop(ret: Ret) {
    ret.KickThenClose? || ret.ToSkip?
  }

  /** The thread holds the receive path of pc.s: its receive buffer, its ring and the duty to post again or close. */
  predicate HasBaton(pc: Pc) {
    match pc
    case Accepting(_, _) => true
    case Posting(_, _) => true
    case Receiving(_, _, _) => true
    case Scanning(_, _) => true
    case Ending(_, at, ret) => InLoop(ret) || (at == CloseCas && EndsReceive(ret))
    case Sending(_, _, ret) => InLoop(ret)
    case _ => false
  }

  /** Baton points at which recvPosted is set. */
  predicate IsPosted(pc: Pc) {
    (pc.Posting? && pc.post in {PostAdd, PostCall, PostUndoFlag}) || (pc.Receiving? && pc.recv == RecvFlag)
  }

  /** Past the compare-and-swap of RequestClose and before its job is pushed. */
  predicate IsClosing(pc: Pc) {
    pc.Ending? && pc.close != CloseCas
  }

  /** A dequeued I/O completion not yet subtracted from pendingIO. */
  predicate IsHandling(pc: Pc) {
    (pc.Receiving? && pc.recv in {RecvFlag, RecvDrop}) || (pc.Sent? && pc.sent == SentDrop)
  }

  /** The thread accounts for one unit of pc.s.pendingIO: between the fetch_add and its failure's
      fetch_sub, or with a dequeued completion not yet subtracted. */
  predicate HasRef(pc: Pc) {
    || IsHandling(pc)
    || (pc.Posting? && pc.post in {PostCall, PostUndoFlag, PostUndoAdd})
    || (pc.Sending? && (pc.send.SendCall? || pc.send.SendUndo?))
  }

  predicate HasContext(pc: Pc) {
    (pc.Sending? && !pc.send.SendGate? && !pc.send.SendPost?) || (pc.Sent? && pc.sent != SentCheck)
  }

  function ContextOf(pc: Pc): OpId
    requires HasContext(pc)
  {
    if pc.Sending? then pc.send.o else pc.o
  }

  predicate IsDoomed(pc: Pc) {
    pc.Destroying? && pc.td in {TdCas, TdRemove, TdDelete}
  }

  predicate IsDeleting(pc: Pc) {
    pc.Destroying? && pc.td in {TdRemove, TdDelete}
  }

  /** A worker that has yet to decide in TryDestroySession about pc.s. */
  predicate Visits(t: Tid, pc: Pc) {
    t.Worker? && pc != Idle && !IsDeleting(pc)
  }

  function RetOf(pc: Pc): Ret {
    if pc.Ending? || pc.Sending? then pc.ret else ToIdle
  }

  /** The game thread runs a Disconnect job. */
  predicate IsDisconnecting(pc: Pc) {
    || (pc.Gaming? && (pc.game == GameMark || (pc.game.GameRun? && pc.game.disconnecting)))
    || (RetOf(pc).ToGame? && RetOf(pc).disconnecting)
  }

  /** The session of the job the game thread runs. */
  function Home(pc: Pc): Sid
    requires pc != Idle
  {
    if RetOf(pc).ToGame? then RetOf(pc).home else pc.s
  }

  /** Where a thread is. */
  function PcOf(y: State, t: Tid): Pc {
    if t in y.threads then y.threads[t] else Idle
  }

  // ---- which thread is where ----------------------------------------------------------------------

  predicate Shape(t: Tid, pc: Pc) {
    pc == Idle ||
    match t
    case Acceptor => pc.Accepting? || pc.Posting? || (pc.Ending? && pc.ret == ToIdle)
    case GameThread => pc.Gaming? || ((pc.Ending? || pc.Sending?) && pc.ret.ToGame?)
    case Worker(_) =>
      && !pc.Accepting? && !pc.Gaming?
      && (pc.Ending? ==> pc.ret.ToDestroy? || InLoop(pc.ret))
      && (pc.Sending? ==> pc.ret.KickThenClose?)
  }

  /** The remaining effects of the job being run. */
  function EffectsOf(pc: Pc): seq<Effect> {
    if pc.Gaming? && pc.game.GameRun? then pc.game.fx else if RetOf(pc).ToGame? then RetOf(pc).fx else []
  }

  /** The sessions a program point names exist. */
  ghost predicate PcOk(t: Tid, pc: Pc, sessions: map<Sid, Sess>) {
    && Shape(t, pc)
    && (pc != Idle ==>
          && pc.s in sessions && Home(pc) in sessions
          && (forall i :: 0 <= i < |EffectsOf(pc)| ==> EffectsOf(pc)[i].to in sessions))
  }

  ghost predicate ThreadOk(y: State, t: Tid) {
    t in y.threads ==> PcOk(t, y.threads[t], y.sessions)
  }

  /** Threads where they may be, on sessions that exist. */
  ghost predicate Shaped(y: State) {
    && Acceptor in y.threads && GameThread in y.threads
    && (forall t :: ThreadOk(y, t))
    && (forall i :: 0 <= i < |y.log| ==> y.log[i].s in y.sessions)
    && y.done <= |y.log|
    && (forall s :: s in y.lobby.players ==> s in y.sessions)
  }

  /** Where a step may take its thread: along the session it is at, home, or to the next effect. */
  predicate ShapeLocal(t: Tid, pc: Pc, turn: Turn) {
    && pc != Idle
    && Shape(t, turn.pc)
    && (turn.touch.Push? ==> turn.touch.job.s == pc.s)
    && (turn.pc != Idle ==>
          && (turn.pc.s == pc.s || turn.pc.s == Home(pc) || (EffectsOf(pc) != [] && turn.pc.s == EffectsOf(pc)[0].to))
          && (t != GameThread ==> turn.pc.s == pc.s)
          && Home(turn.pc) == Home(pc)
          && (EffectsOf(turn.pc) == EffectsOf(pc) || (EffectsOf(pc) != [] && EffectsOf(turn.pc) == EffectsOf(pc)[1..])))
  }

  lemma ShapedKept(y: State, t: Tid, turn: Turn)
    requires Shaped(y) && t in y.threads && ShapeLocal(t, y.threads[t], turn)
    ensures Shaped(Apply(y, t, y.threads[t].s, turn))
  {
    var y1 := Apply(y, t, y.threads[t].s, turn);
    assert ThreadOk(y, t);
    forall u
      ensures ThreadOk(y1, u)
    {
      assert ThreadOk(y, u);
    }
  }

  /** Sessions stay, and thread t is where it may be. */
  lemma MoveShaped(y: State, y1: State, t: Tid)
    requires Shaped(y) && t in y1.threads && y1.threads == y.threads[t := y1.threads[t]]
    requires forall s :: s in y.sessions ==> s in y1.sessions
    requires PcOk(t, y1.threads[t], y1.sessions)
    requires y1.log == y.log && y1.done <= |y.log| && (forall s :: s in y1.lobby.players ==> s in y1.sessions)
    ensures Shaped(y1)
  {
    forall u
      ensures ThreadOk(y1, u)
    {
      assert ThreadOk(y, u);
    }
  }

  // ---- sockets -------------------------------------------------------------------------------------

  lemma CloseOpensNothing(t: Tid, s: Sid, at: CloseAt, ret: Ret, d: Sess, logged: nat)
    ensures CloseStep(t, s, at, ret, d, logged).d.socketOpen ==> d.socketOpen
  {
    match at
    case CloseCas =>
    case CloseIssue =>
    case CloseSocket =>
    case CloseStore =>
    case ClosePush =>
  }

  lemma SendOpensNothing(s: Sid, at: SendAt, ret: Ret, d: Sess, fails: bool, next: OpId)
    ensures SendStep(s, at, ret, d, fails, next).d.socketOpen == d.socketOpen
  {
    match at
    case SendGate(_) =>
    case SendPost(_) =>
    case SendAdd(_, _) =>
    case SendCall(_, _) =>
    case SendUndo(_) =>
    case SendFree(_) =>
  }

  lemma GameOpensNothing(s: Sid, at: GameAt, d: Sess)
    ensures GameStep(s, at, d).d.socketOpen == d.socketOpen
  {
  }

  lemma PostOpensNothing(t: Tid, s: Sid, at: PostRecvAt, d: Sess, fails: bool, next: OpId)
    ensures PostStep(t, s, at, d, fails, next).d.socketOpen == d.socketOpen
  {
    match at
    case PostGate =>
    case PostCas =>
    case PostAdd =>
    case PostCall =>
    case PostUndoFlag =>
    case PostUndoAdd =>
  }

  lemma RecvOpensNothing(s: Sid, at: RecvAt, ok: bool, d: Sess)
    ensures RecvStep(s, at, ok, d).d.socketOpen == d.socketOpen
  {
    match at
    case RecvFlag =>
    case RecvDrop =>
    case RecvCheck =>
    case RecvGate =>
    case RecvFill =>
  }

  lemma FrameOpensNothing(s: Sid, at: FrameAt, d: Sess)
    requires at.SkipBody? ==> |at.p.body| <= |d.ring|
    ensures FrameStep(s, at, d).d.socketOpen == d.socketOpen
  {
  }

  lemma DestroyOpensNothing(t: Tid, s: Sid, at: DestroyAt, d: Sess)
    ensures DestroyStep(t, s, at, d).d.socketOpen == d.socketOpen
  {
    match at
    case TdState =>
    case TdCleanup =>
    case TdPending =>
    case TdCas =>
    case TdRemove =>
    case TdDelete =>
  }

  lemma AcceptOpensNothing(s: Sid, at: AcceptAt, d: Sess, logged: nat)
    ensures AcceptStep(s, at, d, logged).d.socketOpen == d.socketOpen
  {
    match at
    case AccRegister =>
    case AccAnnounce =>
    case AccAssociate =>
  }

  lemma SentOpensNothing(s: Sid, at: SentAt, o: OpId, ok: bool, d: Sess)
    ensures SentStep(s, at, o, ok, d).d.socketOpen == d.socketOpen
  {
  }

  lemma SocketStaysClosed(t: Tid, pc: Pc, d: Sess, fails: bool, next: OpId, logged: nat)
    requires MayTurn(pc, d)
    ensures TurnOf(t, pc, d, fails, next, logged).d.socketOpen ==> d.socketOpen
  {
    match pc
    case Accepting(s, at) => AcceptOpensNothing(s, at, d, logged);
    case Posting(s, at) => PostOpensNothing(t, s, at, d, fails, next);
    case Receiving(s, at, ok) => RecvOpensNothing(s, at, ok, d);
    case Scanning(s, at) => FrameOpensNothing(s, at, d);
    case Sent(s, at, o, ok) => SentOpensNothing(s, at, o, ok, d);
    case Ending(s, at, ret) => CloseOpensNothing(t, s, at, ret, d, logged);
    case Sending(s, at, ret) => SendOpensNothing(s, at, ret, d, fails, next);
    case Destroying(s, at) => DestroyOpensNothing(t, s, at, d);
    case Gaming(s, at) => GameOpensNothing(s, at, d);
  }
}
