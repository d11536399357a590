/**
 The server as a concurrent step system: the accept thread, any number of completion-port workers, the
 game thread, and the kernel. One step is one atomic operation, one kernel call or one queue operation;
 steps of different threads interleave freely. A deleted session stays in the state as a tombstone.

 The fields marked history only record what happened; no step reads them.
 */
module Server {
  import opened Bytes
  import opened Framing
  import opened Protocol
  import opened Lobby
  import opened LobbyCodec
  import opened Session
  import R = RingBuffer

  type OpId = nat

  datatype Tid = Acceptor | GameThread | Worker(n: nat)

  /** History: who holds the receive path of a session. */
  datatype Baton = Nobody | InThread(t: Tid) | InKernel(o: OpId) | InQueue(o: OpId)

  /** History: how far the one disconnect of a session has come. */
  datatype Farewell = NotYet | ClosingBy(t: Tid) | JobQueued | Processing | CleanedUp

  /** History: who won the right to delete. */
  datatype Destroyer = NoOne | By(t: Tid) | Deleted

  datatype Sess = Sess(
    state: SessionState, gameCleanupDone: bool, pendingIO: int, destroying: bool, recvPosted: bool, closeIssued: bool,
    socketOpen: bool, associated: bool, registered: bool,
    buffer: seq<byte>,         // what the last completed receive left in the receive buffer
    ring: seq<byte>,           // the contents of the receive ring
    deletions: nat,            // history, as all below
    baton: Baton, ending: Farewell, destroyer: Destroyer, doomed: bool,
    connectAt: int, disconnectAt: int,                  // places in the job log, or -1
    wire: seq<byte>, fed: seq<byte>, taken: seq<Packet>)   // bytes delivered, bytes written to the ring, packets taken off it

  const NEW_SESSION := Sess(
    Connected, false, 0, false, false, false, true, false, false, [], [],
    0, InThread(Acceptor), NotYet, NoOne, false, -1, -1, [], [], [])

  /** Where a nested RequestClose or SendPacket returns to. */
  datatype Ret =
    | ToIdle                                  // the accept thread: its turn is over
    | ToDestroy(received: bool)               // a worker: on to TryDestroySession
    | KickThenClose(p: Packet)                // ProcessPacket: the kick is sent, now RequestClose
    | ToSkip(p: Packet)                       // ProcessPacket returns, the loop skips the body
    | ToGame(home: Sid, fx: seq<Effect>, disconnecting: bool)   // the game thread: the remaining effects of its job

  // The program points of each routine, in order.

  /** The accept thread, after accept() and new Session. */
  datatype AcceptAt = AccRegister | AccAnnounce | AccAssociate
  datatype PostRecvAt = PostGate | PostCas | PostAdd | PostCall | PostUndoFlag | PostUndoAdd
  /** OnRecvComplete, down to the framing loop. */
  datatype RecvAt = RecvFlag | RecvDrop | RecvCheck | RecvGate | RecvFill
  /** The framing loop and ProcessPacket. */
  datatype FrameAt = FrameScan | ProcGate(p: Packet) | ProcPush(p: Packet) | SkipBody(p: Packet)
  /** OnSendComplete. */
  datatype SentAt = SentDrop | SentFree | SentCheck
  /** RequestClose and, inside it, Close. */
  datatype CloseAt = CloseCas | CloseIssue | CloseSocket | CloseStore | ClosePush
  /** SendPacket and, inside it, PostSend. */
  datatype SendAt =
    | SendGate(pk: Packet) | SendPost(pk: Packet) | SendAdd(o: OpId, pk: Packet) | SendCall(o: OpId, pk: Packet)
    | SendUndo(o: OpId) | SendFree(o: OpId)
  /** TryDestroySession. */
  datatype DestroyAt = TdState | TdCleanup | TdPending | TdCas | TdRemove | TdDelete
  /** The game thread with the remaining effects of its job, or after a Disconnect job. */
  datatype GameAt = GameRun(fx: seq<Effect>, disconnecting: bool) | GameMark | GameWake

  datatype Pc =
    | Idle
    | Accepting(s: Sid, acc: AcceptAt)
    | Posting(s: Sid, post: PostRecvAt)
    | Receiving(s: Sid, recv: RecvAt, ok: bool)
    | Scanning(s: Sid, frame: FrameAt)
    | Sent(s: Sid, sent: SentAt, o: OpId, ok: bool)
    | Ending(s: Sid, close: CloseAt, ret: Ret)
    | Sending(s: Sid, send: SendAt, ret: Ret)
    | Destroying(s: Sid, td: DestroyAt)
    | Gaming(s: Sid, game: GameAt)

  datatype Op = Op(s: Sid, isRecv: bool)

  datatype Completion = IoDone(s: Sid, isRecv: bool, ok: bool) | Cleanup(s: Sid)

  /** History: where a send context is. */
  datatype Place = Held(t: Tid) | PlacedInKernel | PlacedInQueue | Freed

  datatype State = State(
    sessions: map<Sid, Sess>,
    threads: map<Tid, Pc>,
    kernel: map<OpId, Op>,            // I/O started and not completed
    queue: map<OpId, Completion>,     // the completion port; any completion may be dequeued next
    log: seq<Job>,                    // every job ever pushed; the job queue is log[done..]
    done: nat,
    lobby: Lobby,
    nextOp: OpId,
    contexts: map<OpId, Place>,       // history: every send context ever allocated
    frees: multiset<OpId>)            // history: every delete of a send context

  // ---- single thread steps ------------------------------------------------------------------------

  /** What one step of a thread does besides moving the thread and changing the session it is at. */
  datatype Touch =
    | NoTouch
    | Push(job: Job)          // a job is pushed
    | StartRecv               // the kernel takes the receive, under the next id
    | StartSend(o: OpId)      // the kernel takes the send
    | NewContext              // new SendContext, under the next id
    | FreeContext(o: OpId)    // delete of a SendContext
    | Wake                    // a cleanup completion for the session is queued

  /** One step: the thread's next program point, the session as it leaves it, and the rest. */
  datatype Turn = Turn(pc: Pc, d: Sess, touch: Touch)

  function Go(pc: Pc, d: Sess): Turn {
    Turn(pc, d, NoTouch)
  }

  function Return(s: Sid, ret: Ret): Pc {
    match ret
    case ToIdle => Idle
    case ToDestroy(_) => Destroying(s, TdState)
    case KickThenClose(p) => Ending(s, CloseCas, ToSkip(p))
    case ToSkip(p) => Scanning(s, SkipBody(p))
    case ToGame(home, fx, disconnecting) => Gaming(home, GameRun(fx, disconnecting))
  }

  /** After PostRecv the accept thread is done, a worker goes on to TryDestroySession. */
  function AfterPost(t: Tid, s: Sid): Pc {
    if t == Acceptor then Idle else Destroying(s, TdState)
  }

  function RetOfPost(t: Tid): Ret {
    if t == Acceptor then ToIdle else ToDestroy(true)
  }

  /** History: a close that ends the receive path gives the baton up. */
  predicate EndsReceive(ret: Ret) {
    ret == ToIdle || ret == ToDestroy(true)
  }

  function Drop(d: Sess, ret: Ret): Baton {
    if EndsReceive(ret) then Nobody else d.baton
  }

  function AcceptStep(s: Sid, at: AcceptAt, d: Sess, logged: nat): Turn {
    match at
    case AccRegister => Go(Accepting(s, AccAnnounce), d.(registered := true))
    case AccAnnounce => Turn(Accepting(s, AccAssociate), d.(connectAt := logged), Push(Connect(s)))
    case AccAssociate => Go(Posting(s, PostGate), d.(associated := true))
  }

  /** PostRecv. A receive started on a closed socket fails. */
  function PostStep(t: Tid, s: Sid, at: PostRecvAt, d: Sess, fails: bool, next: OpId): Turn {
    match at
    case PostGate => if d.state != Connected then Go(AfterPost(t, s), d.(baton := Nobody)) else Go(Posting(s, PostCas), d)
    case PostCas =>
      if d.recvPosted then Go(AfterPost(t, s), d.(baton := Nobody)) else Go(Posting(s, PostAdd), d.(recvPosted := true))
    case PostAdd => Go(Posting(s, PostCall), d.(pendingIO := d.pendingIO + 1))
    case PostCall =>
      if fails || !d.socketOpen then Go(Posting(s, PostUndoFlag), d)
      else Turn(AfterPost(t, s), d.(baton := InKernel(next)), StartRecv)
    case PostUndoFlag => Go(Posting(s, PostUndoAdd), d.(recvPosted := false))
    case PostUndoAdd => Go(Ending(s, CloseCas, RetOfPost(t)), d.(pendingIO := d.pendingIO - 1))
  }

  function RecvStep(s: Sid, at: RecvAt, ok: bool, d: Sess): Turn {
    match at
    case RecvFlag => Go(Receiving(s, RecvDrop, ok), d.(recvPosted := false))
    case RecvDrop => Go(Receiving(s, RecvCheck, ok), d.(pendingIO := d.pendingIO - 1))
    case RecvCheck => Go(if !ok || d.buffer == [] then Ending(s, CloseCas, ToDestroy(true)) else Receiving(s, RecvGate, ok), d)
    case RecvGate =>
      if d.state != Connected then Go(Destroying(s, TdState), d.(baton := Nobody)) else Go(Receiving(s, RecvFill, ok), d)
    case RecvFill =>
      if |d.ring| + |d.buffer| > R.RING_SIZE then Go(Ending(s, CloseCas, ToDestroy(true)), d)
      else Go(Scanning(s, FrameScan), d.(ring := d.ring + d.buffer, fed := d.fed + d.buffer))
  }

  /** One turn of the framing loop and ProcessPacket. Nothing is skipped that is not stored. */
  function FrameStep(s: Sid, at: FrameAt, d: Sess): Turn
    requires at.SkipBody? ==> |at.p.body| <= |d.ring|
  {
    match at
    case FrameScan =>
      if Waiting(d.ring) then Go(Posting(s, PostGate), d)
      else if Framing.Malformed(d.ring) then Go(Ending(s, CloseCas, ToDestroy(true)), d)
      else Go(Scanning(s, ProcGate(Head(d.ring))), d.(ring := d.ring[HEADER_SIZE..], taken := d.taken + [Head(d.ring)]))
    case ProcGate(p) =>
      Go(if d.state == SessionState.Closing then Scanning(s, SkipBody(p))
         else if p.Valid() && Known(p.id) then Scanning(s, ProcPush(p))
         else Sending(s, SendGate(KICK), KickThenClose(p)), d)
    case ProcPush(p) => Turn(Scanning(s, SkipBody(p)), d, Push(Deliver(s, p)))
    case SkipBody(p) => Go(Scanning(s, FrameScan), d.(ring := d.ring[|p.body|..]))
  }

  function SentStep(s: Sid, at: SentAt, o: OpId, ok: bool, d: Sess): Turn {
    match at
    case SentDrop => Go(Sent(s, SentFree, o, ok), d.(pendingIO := d.pendingIO - 1))
    case SentFree => Turn(Sent(s, SentCheck, o, ok), d, FreeContext(o))
    case SentCheck => Go(if ok then Destroying(s, TdState) else Ending(s, CloseCas, ToDestroy(false)), d)
  }

  function CloseStep(t: Tid, s: Sid, at: CloseAt, ret: Ret, d: Sess, logged: nat): Turn {
    match at
    case CloseCas =>
      if d.state == Connected
      then Go(Ending(s, CloseIssue, ret), d.(state := SessionState.Closing, ending := ClosingBy(t), baton := Drop(d, ret)))
      else Go(Return(s, ret), d.(baton := Drop(d, ret)))
    case CloseIssue =>
      if d.closeIssued then Go(Ending(s, ClosePush, ret), d) else Go(Ending(s, CloseSocket, ret), d.(closeIssued := true))
    case CloseSocket => Go(Ending(s, CloseStore, ret), d.(socketOpen := false))
    case CloseStore => Go(Ending(s, ClosePush, ret), d.(state := Closed))
    case ClosePush => Turn(Return(s, ret), d.(ending := JobQueued, disconnectAt := logged), Push(Disconnect(s)))
  }

  /** SendPacket and PostSend. A send started on a closed socket fails. */
  function SendStep(s: Sid, at: SendAt, ret: Ret, d: Sess, fails: bool, next: OpId): Turn {
    match at
    case SendGate(pk) => Go(if d.state != Connected || !pk.Valid() then Return(s, ret) else Sending(s, SendPost(pk), ret), d)
    case SendPost(pk) => if d.state == Closed then Go(Return(s, ret), d) else Turn(Sending(s, SendAdd(next, pk), ret), d, NewContext)
    case SendAdd(o, pk) => Go(Sending(s, SendCall(o, pk), ret), d.(pendingIO := d.pendingIO + 1))
    case SendCall(o, _) => if fails || !d.socketOpen then Go(Sending(s, SendUndo(o), ret), d) else Turn(Return(s, ret), d, StartSend(o))
    case SendUndo(o) => Go(Sending(s, SendFree(o), ret), d.(pendingIO := d.pendingIO - 1))
    case SendFree(o) => Turn(Ending(s, CloseCas, ret), d, FreeContext(o))
  }

  function DestroyStep(t: Tid, s: Sid, at: DestroyAt, d: Sess): Turn {
    match at
    case TdState => Go(if d.state == Connected then Idle else Destroying(s, TdCleanup), d)
    case TdCleanup => Go(if d.gameCleanupDone then Destroying(s, TdPending) else Idle, d)
    case TdPending => if d.pendingIO == 0 then Go(Destroying(s, TdCas), d.(doomed := true)) else Go(Idle, d)
    case TdCas => if d.destroying then Go(Idle, d) else Go(Destroying(s, TdRemove), d.(destroying := true, destroyer := By(t)))
    case TdRemove => Go(Destroying(s, TdDelete), d.(registered := false))
    case TdDelete => Go(Idle, d.(deletions := d.deletions + 1, destroyer := Deleted))
  }

  /** The effects of the job in order; a Disconnect then marks the session and wakes a worker. */
  function GameStep(s: Sid, at: GameAt, d: Sess): Turn {
    match at
    case GameRun(fx, disconnecting) =>
      if fx == [] then Go(if disconnecting then Gaming(s, GameMark) else Idle, d)
      else
        var ret := ToGame(s, fx[1..], disconnecting);
        (match fx[0]
         case Send(to, msg) => Go(Sending(to, SendGate(Wire(msg)), ret), d)
         case Close(to) => Go(Ending(to, CloseCas, ret), d))
    case GameMark => Go(Gaming(s, GameWake), d.(gameCleanupDone := true, ending := CleanedUp))
    case GameWake => Turn(Idle, d, Wake)
  }

  predicate MayTurn(pc: Pc, d: Sess) {
    pc != Idle && (pc.Scanning? && pc.frame.SkipBody? ==> |pc.frame.p.body| <= |d.ring|)
  }

  /** The step of thread t at pc, on a session d; next is the next free id, logged the length of the job log. */
  function TurnOf(t: Tid, pc: Pc, d: Sess, fails: bool, next: OpId, logged: nat): Turn
    requires MayTurn(pc, d)
  {
    match pc
    case Accepting(s, at) => AcceptStep(s, at, d, logged)
    case Posting(s, at) => PostStep(t, s, at, d, fails, next)
    case Receiving(s, at, ok) => RecvStep(s, at, ok, d)
    case Scanning(s, at) => FrameStep(s, at, d)
    case Sent(s, at, o, ok) => SentStep(s, at, o, ok, d)
    case Ending(s, at, ret) => CloseStep(t, s, at, ret, d, logged)
    case Sending(s, at, ret) => SendStep(s, at, ret, d, fails, next)
    case Destroying(s, at) => DestroyStep(t, s, at, d)
    case Gaming(s, at) => GameStep(s, at, d)
  }

  function JobsOf(touch: Touch): seq<Job> {
    if touch.Push? then [touch.job] else []
  }

  function KernelAfter(y: State, s: Sid, touch: Touch): map<OpId, Op> {
    if touch.StartRecv? then y.kernel[y.nextOp := Op(s, true)]
    else if touch.StartSend? then y.kernel[touch.o := Op(s, false)]
    else y.kernel
  }

  function ContextsAfter(y: State, t: Tid, touch: Touch): map<OpId, Place> {
    if touch.NewContext? then y.contexts[y.nextOp := Held(t)]
    else if touch.StartSend? then y.contexts[touch.o := PlacedInKernel]
    else if touch.FreeContext? then y.contexts[touch.o := Freed]
    else y.contexts
  }

  function Apply(y: State, t: Tid, s: Sid, turn: Turn): State {
    var touch := turn.touch;
    Update(y, t, turn.pc, s, turn.d).(
      kernel := KernelAfter(y, s, touch),
      queue := if touch.Wake? then y.queue[y.nextOp := Cleanup(s)] else y.queue,
      log := y.log + JobsOf(touch),
      nextOp := if touch.StartRecv? || touch.NewContext? || touch.Wake? then y.nextOp + 1 else y.nextOp,
      contexts := ContextsAfter(y, t, touch),
      frees := y.frees + if touch.FreeContext? then multiset{touch.o} else multiset{})
  }

  function Update(y: State, t: Tid, pc: Pc, s: Sid, d: Sess): State {
    y.(threads := y.threads[t := pc], sessions := y.sessions[s := d])
  }

  // ---- the whole system ---------------------------------------------------------------------------

  datatype Action =
    | Accept(s: Sid)                                 // accept() returns and the session is constructed
    | Run(t: Tid, fails: bool)                       // thread t takes its next step; a kernel call in it may fail
    | Complete(o: OpId, ok: bool, data: seq<byte>)   // the kernel completes an operation; data is what was received
    | Take(n: nat, o: OpId)                          // worker n dequeues a completion
    | Pop(env: Env)                                  // the game thread pops a job and runs its handler

  function Next(y: State, a: Action): State
    requires Enabled(y, a)
  {
    match a
    case Accept(s) => AcceptNew(y, s)
    case Run(t, fails) => RunStep(y, t, fails)
    case Complete(o, ok, data) => CompleteStep(y, o, ok, data)
    case Take(n, o) => TakeStep(y, n, o)
    case Pop(env) => PopStep(y, env)
  }

  ghost predicate Enabled(y: State, a: Action) {
    match a
    case Accept(s) => Acceptor in y.threads && y.threads[Acceptor] == Idle && s !in y.sessions
    case Run(t, _) => CanRun(y, t)
    case Complete(o, ok, data) =>
      && o in y.kernel && y.kernel[o].s in y.sessions && y.sessions[y.kernel[o].s].associated
      && |data| <= BUFFER_SIZE && (!ok ==> data == [])
    case Take(n, o) => Worker(n) in y.threads && y.threads[Worker(n)] == Idle && o in y.queue && y.queue[o].s in y.sessions
    case Pop(env) =>
      && GameThread in y.threads && y.threads[GameThread] == Idle && y.done < |y.log|
      && y.log[y.done].s in y.sessions && PickOk(y.lobby, env) && Step(y.lobby, y.log[y.done], env).Done?
  }

  ghost predicate CanRun(y: State, t: Tid) {
    t in y.threads && y.threads[t] != Idle && y.threads[t].s in y.sessions && MayTurn(y.threads[t], y.sessions[y.threads[t].s])
  }

  function TurnAt(y: State, t: Tid, fails: bool): Turn
    requires CanRun(y, t)
  {
    TurnOf(t, y.threads[t], y.sessions[y.threads[t].s], fails, y.nextOp, |y.log|)
  }

  function RunStep(y: State, t: Tid, fails: bool): State
    requires CanRun(y, t)
  {
    Apply(y, t, y.threads[t].s, TurnAt(y, t, fails))
  }

  function AcceptNew(y: State, s: Sid): State {
    Update(y, Acceptor, Accepting(s, AccRegister), s, NEW_SESSION)
  }

  /** The operation leaves the kernel and its completion is queued; a receive has filled the buffer. */
  function CompleteStep(y: State, o: OpId, ok: bool, data: seq<byte>): State
    requires o in y.kernel && y.kernel[o].s in y.sessions
  {
    var op := y.kernel[o];
    var d := y.sessions[op.s];
    y.(kernel := y.kernel - {o},
       queue := y.queue[o := IoDone(op.s, op.isRecv, ok && (op.isRecv || data != []))],
       sessions := y.sessions[op.s := if op.isRecv then d.(buffer := data, wire := d.wire + data, baton := InQueue(o)) else d],
       contexts := if op.isRecv then y.contexts else y.contexts[o := PlacedInQueue])
  }

  /** Where a worker starts on a completion. */
  function Dequeued(c: Completion, o: OpId): Pc {
    match c
    case Cleanup(s) => Destroying(s, TdState)
    case IoDone(s, isRecv, ok) => if isRecv then Receiving(s, RecvFlag, ok) else Sent(s, SentDrop, o, ok)
  }

  function TakeStep(y: State, n: nat, o: OpId): State
    requires o in y.queue && y.queue[o].s in y.sessions
  {
    var t, c := Worker(n), y.queue[o];
    var d := y.sessions[c.s];
    Update(y, t, Dequeued(c, o), c.s, if c.IoDone? && c.isRecv then d.(baton := InThread(t)) else d).(
      queue := y.queue - {o},
      contexts := if c.IoDone? && !c.isRecv then y.contexts[o := Held(t)] else y.contexts)
  }

  /** The game thread takes the next job up; its handler leaves lobby l and effects fx. */
  function Popped(y: State, l: Lobby, fx: seq<Effect>): State
    requires y.done < |y.log| && y.log[y.done].s in y.sessions
  {
    var job := y.log[y.done];
    var d := y.sessions[job.s];
    Update(y, GameThread, Gaming(job.s, GameRun(fx, job.Disconnect?)), job.s,
           if job.Disconnect? then d.(ending := Processing) else d).(done := y.done + 1, lobby := l)
  }

  function PopStep(y: State, env: Env): State
    requires y.done < |y.log| && y.log[y.done].s in y.sessions && Step(y.lobby, y.log[y.done], env).Done?
  {
    var o := Step(y.lobby, y.log[y.done], env);
    Popped(y, o.lobby, o.effects)
  }

  ghost predicate Init(y: State) {
    && y.sessions == map[] && y.kernel == map[] && y.queue == map[] && y.log == [] && y.done == 0
    && y.lobby == INITIAL && y.nextOp == 0 && y.contexts == map[] && y.frees == multiset{}
    && Acceptor in y.threads && GameThread in y.threads
    && (forall t :: t in y.threads ==> y.threads[t] == Idle)
  }

  /** A run: states, and the actions between them. */
  ghost predicate IsRun(ys: seq<State>, actions: seq<Action>) {
    && |ys| == |actions| + 1 && Init(ys[0])
    && (forall i :: 0 <= i < |actions| ==> Enabled(ys[i], actions[i]) && ys[i + 1] == Next(ys[i], actions[i]))
  }
}
