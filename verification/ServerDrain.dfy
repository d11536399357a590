/**
 The server comes to rest. Once no connection is accepted and no byte arrives, every step of every thread,
 every completion of a send and every completion of a receive on a closed socket makes a measure smaller,
 whatever the interleaving; and when no such step is left, nothing is left to do.
 */
module ServerDrain {
  import opened Bytes
  import opened Framing
  import opened Protocol
  import opened Lobby
  import opened Session
  import opened Server
  import opened ServerShape
  import opened ServerBaton
  import opened ServerEnding
  import opened ServerRefs
  import opened ServerContexts
  import opened ServerLog
  import opened ServerOpening
  import opened ServerOrder
  import opened ServerTurns
  import opened ServerSafe
  import opened ServerTheorems

  // ---- sums over maps -----------------------------------------------------------------------------

  ghost function SumOf<K(!new), V(!new)>(m: map<K, V>, w: V -> nat): nat
    decreases |m|
  {
    if m == map[] then 0
    else
      var k :| k in m;
      w(m[k]) + SumOf(m - {k}, w)
  }

  lemma {:induction false} SumWithout<K(!new), V(!new)>(m: map<K, V>, w: V -> nat, k: K)
    requires k in m
    ensures SumOf(m, w) == w(m[k]) + SumOf(m - {k}, w)
    decreases |m|
  {
    var j :| j in m && SumOf(m, w) == w(m[j]) + SumOf(m - {j}, w);
    if j != k {
      SumWithout(m - {j}, w, k);
      SumWithout(m - {k}, w, j);
      assert m - {j} - {k} == m - {k} - {j};
    }
  }

  lemma SumWith<K(!new), V(!new)>(m: map<K, V>, w: V -> nat, k: K, v: V)
    ensures SumOf(m[k := v], w) == SumOf(m, w) + w(v) - if k in m then w(m[k]) else 0
  {
    SumWithout(m[k := v], w, k);
    if k in m {
      SumWithout(m, w, k);
      assert m[k := v] - {k} == m - {k};
    } else {
      assert m[k := v] - {k} == m;
    }
  }

  // ---- the measure --------------------------------------------------------------------------------

  /** Steps left to a thread after a nested close or send. */
  function ReturnWork(ret: Ret): nat {
    match ret
    case ToIdle => 0
    case ToDestroy(_) => 6
    case ToSkip(_) => 30
    case KickThenClose(_) => 35
    case ToGame(_, _, _) => 10
  }

  function CloseWork(at: CloseAt): nat {
    match at
    case CloseCas => 5
    case CloseIssue => 4
    case CloseSocket => 3
    case CloseStore => 2
    case ClosePush => 1
  }

  function SendWork(at: SendAt): nat {
    match at
    case SendGate(_) => 20
    case SendPost(_) => 19
    case SendAdd(_, _) => 18
    case SendCall(_, _) => 17
    case SendUndo(_) => 7
    case SendFree(_) => 6
  }

  function PostWork(at: PostRecvAt): nat {
    match at
    case PostGate => 28
    case PostCas => 27
    case PostAdd => 26
    case PostCall => 25
    case PostUndoFlag => 13
    case PostUndoAdd => 12
  }

  /** Room for every step a thread may take from here, and every operation it may start. */
  function Work(pc: Pc): nat {
    match pc
    case Idle => 0
    case Accepting(_, at) => (match at case AccRegister => 31 case AccAnnounce => 30 case AccAssociate => 29)
    case Posting(_, at) => PostWork(at)
    case Receiving(_, at, _) =>
      (match at case RecvFlag => 16 case RecvDrop => 15 case RecvCheck => 14 case RecvGate => 13 case RecvFill => 12)
    case Scanning(_, at) =>
      (match at case FrameScan => 29 case SkipBody(_) => 30 case ProcPush(_) => 31 case ProcGate(_) => 56)
    case Sent(_, at, _, _) => (match at case SentDrop => 14 case SentFree => 13 case SentCheck => 12)
    case Ending(_, at, ret) => CloseWork(at) + ReturnWork(ret)
    case Sending(_, at, ret) => SendWork(at) + ReturnWork(ret)
    case Destroying(_, at) =>
      (match at case TdState => 6 case TdCleanup => 5 case TdPending => 4 case TdCas => 3 case TdRemove => 2 case TdDelete => 1)
    case Gaming(_, at) => (match at case GameRun(_, _) => 10 case GameMark => 9 case GameWake => 8)
  }

  function OpWork(op: Op): nat {
    if op.isRecv then 18 else 16
  }

  function QueueWork(c: Completion): nat {
    match c
    case IoDone(_, isRecv, _) => if isRecv then 17 else 15
    case Cleanup(_) => 7
  }

  /** A job a thread is bound to push: the packet it has taken, the session it has to announce. */
  function Bound(pc: Pc): nat {
    if Unannounced(pc) || (pc.Scanning? && (pc.frame.ProcGate? || pc.frame.ProcPush?)) then 1 else 0
  }

  function Unfed(d: Sess): nat {
    if |d.fed| <= |d.wire| then |d.wire| - |d.fed| else 0
  }

  /** Room for every job a session may still give rise to: its bytes, and its one disconnect. */
  function Promise(d: Sess): nat {
    2 * Unfed(d) + |d.ring| + if d.ending.NotYet? || d.ending.ClosingBy? then 1 else 0
  }

  datatype Measure = Measure(jobs: nat, effects: nat, work: nat)

  ghost function Left(y: State): Measure
    requires GameThread in y.threads && y.done <= |y.log|
  {
    Measure(|y.log| - y.done + SumOf(y.sessions, Promise) + SumOf(y.threads, Bound),
            |EffectsOf(y.threads[GameThread])|,
            SumOf(y.threads, Work) + SumOf(y.kernel, OpWork) + SumOf(y.queue, QueueWork))
  }

  /** Fewer jobs; or as many, and fewer effects; or as many of both, and less work. */
  predicate Less(m: Measure, n: Measure) {
    m.jobs < n.jobs || (m.jobs == n.jobs && (m.effects < n.effects || (m.effects == n.effects && m.work < n.work)))
  }

  // ---- a thread's step ----------------------------------------------------------------------------

  function TouchWork(touch: Touch): nat {
    match touch
    case StartRecv => 18
    case StartSend(_) => 16
    case Wake => 7
    case _ => 0
  }

  /** The share of one thread and the session it is at. */
  function Share(pc: Pc, d: Sess, jobs: nat, more: nat): Measure {
    Measure(jobs + Promise(d) + Bound(pc), |EffectsOf(pc)|, Work(pc) + more)
  }

  predicate Shrinks(pc: Pc, d: Sess, turn: Turn) {
    Less(Share(turn.pc, turn.d, |JobsOf(turn.touch)|, TouchWork(turn.touch)), Share(pc, d, 0, 0))
  }

  predicate Ready(t: Tid, pc: Pc, d: Sess) {
    Here(t, pc, d) && (HasBaton(pc) ==> OrderHere(pc, d))
  }

  lemma AcceptShrinks(t: Tid, s: Sid, at: AcceptAt, d: Sess, logged: nat)
    requires Ready(t, Accepting(s, at), d)
    ensures Shrinks(Accepting(s, at), d, AcceptStep(s, at, d, logged))
  {
  }

  lemma PostShrinks(t: Tid, s: Sid, at: PostRecvAt, d: Sess, fails: bool, next: OpId)
    requires Ready(t, Posting(s, at), d)
    ensures Shrinks(Posting(s, at), d, PostStep(t, s, at, d, fails, next))
  {
  }

  lemma RecvShrinks(t: Tid, s: Sid, at: RecvAt, ok: bool, d: Sess)
    requires Ready(t, Receiving(s, at, ok), d)
    ensures Shrinks(Receiving(s, at, ok), d, RecvStep(s, at, ok, d))
  {
  }

  lemma FrameShrinks(t: Tid, s: Sid, at: FrameAt, d: Sess)
    requires Ready(t, Scanning(s, at), d) && (at.SkipBody? ==> |at.p.body| <= |d.ring|)
    ensures Shrinks(Scanning(s, at), d, FrameStep(s, at, d))
  {
  }

  lemma SentShrinks(t: Tid, s: Sid, at: SentAt, o: OpId, ok: bool, d: Sess)
    requires Ready(t, Sent(s, at, o, ok), d)
    ensures Shrinks(Sent(s, at, o, ok), d, SentStep(s, at, o, ok, d))
  {
  }

  lemma CloseShrinks(t: Tid, s: Sid, at: CloseAt, ret: Ret, d: Sess, logged: nat)
    requires Ready(t, Ending(s, at, ret), d)
    ensures Shrinks(Ending(s, at, ret), d, CloseStep(t, s, at, ret, d, logged))
  {
  }

  lemma SendShrinks(t: Tid, s: Sid, at: SendAt, ret: Ret, d: Sess, fails: bool, next: OpId)
    requires Ready(t, Sending(s, at, ret), d)
    ensures Shrinks(Sending(s, at, ret), d, SendStep(s, at, ret, d, fails, next))
  {
  }

  lemma DestroyShrinks(t: Tid, s: Sid, at: DestroyAt, d: Sess)
    requires Ready(t, Destroying(s, at), d)
    ensures Shrinks(Destroying(s, at), d, DestroyStep(t, s, at, d))
  {
  }

  lemma GameShrinks(t: Tid, s: Sid, at: GameAt, d: Sess)
    requires Ready(t, Gaming(s, at), d)
    ensures Shrinks(Gaming(s, at), d, GameStep(s, at, d))
  {
  }

  lemma TurnShrinks(t: Tid, pc: Pc, d: Sess, fails: bool, next: OpId, logged: nat)
    requires Ready(t, pc, d) && MayTurn(pc, d)
    ensures Shrinks(pc, d, TurnOf(t, pc, d, fails, next, logged))
  {
    match pc
    case Accepting(s, at) => AcceptShrinks(t, s, at, d, logged);
    case Posting(s, at) => PostShrinks(t, s, at, d, fails, next);
    case Receiving(s, at, ok) => RecvShrinks(t, s, at, ok, d);
    case Scanning(s, at) => FrameShrinks(t, s, at, d);
    case Sent(s, at, o, ok) => SentShrinks(t, s, at, o, ok, d);
    case Ending(s, at, ret) => CloseShrinks(t, s, at, ret, d, logged);
    case Sending(s, at, ret) => SendShrinks(t, s, at, ret, d, fails, next);
    case Destroying(s, at) => DestroyShrinks(t, s, at, d);
    case Gaming(s, at) => GameShrinks(t, s, at, d);
  }

  /** Only the game thread carries effects. */
  lemma NoEffectsElsewhere(t: Tid, pc: Pc)
    requires t != GameThread && Shape(t, pc)
    ensures EffectsOf(pc) == []
  {
  }

  lemma JobsAfter(y: State, t: Tid, s: Sid, turn: Turn)
    requires t in y.threads && s in y.sessions && GameThread in y.threads && y.done <= |y.log|
    ensures Left(Apply(y, t, s, turn)).jobs ==
            Left(y).jobs + |JobsOf(turn.touch)| + Promise(turn.d) + Bound(turn.pc) - Promise(y.sessions[s]) - Bound(y.threads[t])
  {
    SumWith(y.sessions, Promise, s, turn.d);
    SumWith(y.threads, Bound, t, turn.pc);
  }

  lemma WorkAfter(y: State, t: Tid, s: Sid, turn: Turn)
    requires t in y.threads && GameThread in y.threads && y.done <= |y.log|
    requires y.nextOp !in y.kernel && y.nextOp !in y.queue && (turn.touch.StartSend? ==> turn.touch.o !in y.kernel)
    ensures Left(Apply(y, t, s, turn)).work == Left(y).work + Work(turn.pc) + TouchWork(turn.touch) - Work(y.threads[t])
  {
    SumWith(y.threads, Work, t, turn.pc);
    match turn.touch
    case StartRecv => SumWith(y.kernel, OpWork, y.nextOp, Op(s, true));
    case StartSend(o) => SumWith(y.kernel, OpWork, o, Op(s, false));
    case Wake => SumWith(y.queue, QueueWork, y.nextOp, Cleanup(s));
    case _ =>
  }

  lemma ApplyShrinks(y: State, t: Tid, s: Sid, turn: Turn)
    requires Safe(y) && Turns(y, t, s, turn) && Shrinks(y.threads[t], y.sessions[s], turn)
    ensures Less(Left(Apply(y, t, s, turn)), Left(y))
  {
    StartsAreFresh(y, t, s, turn);
    JobsAfter(y, t, s, turn);
    WorkAfter(y, t, s, turn);
    assert ThreadOk(y, t);
    if t != GameThread {
      NoEffectsElsewhere(t, y.threads[t]);
      NoEffectsElsewhere(t, turn.pc);
    }
  }

  lemma RunShrinks(y: State, t: Tid, fails: bool)
    requires Safe(y) && CanRun(y, t)
    ensures Less(Left(RunStep(y, t, fails)), Left(y))
  {
    var pc := y.threads[t];
    HereOf(y, t);
    if HasBaton(pc) {
      StreamOf(y, t);
    }
    TurnShrinks(t, pc, y.sessions[pc.s], fails, y.nextOp, |y.log|);
    TurnsOf(y, t, fails);
    ApplyShrinks(y, t, pc.s, TurnAt(y, t, fails));
  }

  // ---- the other steps ----------------------------------------------------------------------------

  /** No byte comes in; what was sent, or asked of a closed socket, completes. */
  ghost predicate IsInternal(y: State, a: Action) {
    match a
    case Accept(_) => false
    case Run(_, _) => true
    case Complete(o, _, data) =>
      o in y.kernel && y.kernel[o].s in y.sessions &&
      (y.kernel[o].isRecv ==> data == [] && !y.sessions[y.kernel[o].s].socketOpen)
    case Take(_, _) => true
    case Pop(_) => true
  }

  lemma CompleteShrinks(y: State, o: OpId, ok: bool, data: seq<byte>)
    requires Safe(y) && o in y.kernel && y.kernel[o].s in y.sessions && (y.kernel[o].isRecv ==> data == [])
    ensures Less(Left(CompleteStep(y, o, ok, data)), Left(y))
  {
    var y1 := CompleteStep(y, o, ok, data);
    var op := y.kernel[o];
    assert KernelPlaced(y, o);
    SumWithout(y.kernel, OpWork, o);
    SumWith(y.queue, QueueWork, o, y1.queue[o]);
    SumWith(y.sessions, Promise, op.s, y1.sessions[op.s]);
  }

  lemma TakeKeepsJobs(y: State, n: nat, o: OpId)
    requires GameThread in y.threads && y.done <= |y.log|
    requires Worker(n) in y.threads && y.threads[Worker(n)] == Idle && o in y.queue && y.queue[o].s in y.sessions
    ensures Left(TakeStep(y, n, o)).jobs == Left(y).jobs
  {
    var y1, s := TakeStep(y, n, o), y.queue[o].s;
    SumWith(y.threads, Bound, Worker(n), y1.threads[Worker(n)]);
    SumWith(y.sessions, Promise, s, y1.sessions[s]);
  }

  lemma TakeShrinks(y: State, n: nat, o: OpId)
    requires GameThread in y.threads && y.done <= |y.log|
    requires Worker(n) in y.threads && y.threads[Worker(n)] == Idle && o in y.queue && y.queue[o].s in y.sessions
    ensures Less(Left(TakeStep(y, n, o)), Left(y))
  {
    var y1 := TakeStep(y, n, o);
    TakeKeepsJobs(y, n, o);
    SumWithout(y.queue, QueueWork, o);
    SumWith(y.threads, Work, Worker(n), y1.threads[Worker(n)]);
  }

  lemma PopShrinks(y: State, l: Lobby, fx: seq<Effect>)
    requires Safe(y) && y.threads[GameThread] == Idle && y.done < |y.log| && y.log[y.done].s in y.sessions
    ensures Less(Left(Popped(y, l, fx)), Left(y))
  {
    var y1 := Popped(y, l, fx);
    var s := y.log[y.done].s;
    NextJob(y);
    SumWith(y.sessions, Promise, s, y1.sessions[s]);
    SumWith(y.threads, Bound, GameThread, y1.threads[GameThread]);
  }

  /** Every internal step, of any thread and of the kernel, leaves less to do. */
  lemma InternalStepShrinks(y: State, a: Action)
    requires Safe(y) && Enabled(y, a) && IsInternal(y, a)
    ensures Less(Left(Next(y, a)), Left(y))
  {
    match a
    case Run(t, fails) => RunShrinks(y, t, fails);
    case Complete(o, ok, data) => CompleteShrinks(y, o, ok, data);
    case Take(n, o) => TakeShrinks(y, n, o);
    case Pop(env) =>
      var o := Step(y.lobby, y.log[y.done], env);
      PopShrinks(y, o.lobby, o.effects);
  }

  // ---- coming to rest -----------------------------------------------------------------------------

  /** No internal step is left. */
  ghost predicate AtRest(y: State) {
    forall a :: Enabled(y, a) ==> !IsInternal(y, a)
  }

  /** The game thread waits at a job that would dangle. */
  ghost predicate IsBlocked(y: State) {
    GameIsFree(y) && forall env :: PickOk(y.lobby, env) ==> Step(y.lobby, NextJobOf(y), env).Dangling?
  }

  lemma BusyMayStep(y: State, t: Tid)
    requires Safe(y) && t in y.threads && y.threads[t] != Idle
    ensures Enabled(y, Run(t, false)) && IsInternal(y, Run(t, false))
  {
    BusyCanRun(y, t);
  }

  lemma OperationMayComplete(y: State, o: OpId)
    requires Safe(y) && o in y.kernel
    ensures Enabled(y, Complete(o, false, []))
    ensures IsInternal(y, Complete(o, false, [])) <==> !(y.kernel[o].isRecv && y.sessions[y.kernel[o].s].socketOpen)
  {
    assert KernelPlaced(y, o);
    OperationsAreTied(y, y.kernel[o].s);
  }

  lemma CompletionMayBeTaken(y: State, n: nat, o: OpId)
    requires Safe(y) && o in y.queue && Worker(n) in y.threads && y.threads[Worker(n)] == Idle
    ensures Enabled(y, Take(n, o)) && IsInternal(y, Take(n, o))
  {
    assert QueuePlaced(y, o);
  }

  lemma JobMayBePopped(y: State) returns (env: Env)
    requires Safe(y) && GameIsFree(y) && !IsBlocked(y)
    ensures Enabled(y, Pop(env)) && IsInternal(y, Pop(env))
  {
    NextJob(y);
    env :| PickOk(y.lobby, env) && Step(y.lobby, NextJobOf(y), env).Done?;
  }

  /** With nothing internal left to do, and a worker to do it, every thread is idle, both queues are empty
      and the kernel holds nothing but receives on open sockets. */
  lemma RestIsQuiescent(y: State, n: nat)
    requires Safe(y) && AtRest(y) && !IsBlocked(y) && Worker(n) in y.threads
    ensures Quiescent(y)
    ensures forall o :: o in y.kernel ==> y.kernel[o].isRecv
  {
    forall t | t in y.threads
      ensures y.threads[t] == Idle
    {
      if y.threads[t] != Idle {
        BusyMayStep(y, t);
      }
    }
    forall o | o in y.kernel
      ensures y.kernel[o].s in y.sessions && y.kernel[o].isRecv && y.sessions[y.kernel[o].s].socketOpen
    {
      OperationMayComplete(y, o);
      assert KernelPlaced(y, o);
    }
    if o :| o in y.queue {
      CompletionMayBeTaken(y, n, o);
    }
    if y.done < |y.log| {
      var env := JobMayBePopped(y);
    }
  }

  /** Every session is open and received for or was deleted exactly once, and every send context was freed
      exactly once. */
  ghost predicate IsClean(y: State) {
    && (forall s :: s in y.sessions ==>
          var d := y.sessions[s];
          if d.state == Connected then exists o :: o in y.kernel && y.kernel[o] == Op(s, true) else d.deletions == 1)
    && (forall o :: o in y.contexts ==> y.frees[o] == 1)
  }

  /** A state of rest leaks nothing. */
  lemma RestIsClean(ys: seq<State>, actions: seq<Action>, i: nat, n: nat)
    requires IsRun(ys, actions) && i < |ys| && AtRest(ys[i]) && !IsBlocked(ys[i]) && Worker(n) in ys[i].threads
    ensures IsClean(ys[i])
  {
    RunIsSafe(ys, actions, i);
    RestIsQuiescent(ys[i], n);
    NothingLeaks(ys, actions, i);
    forall o | o in ys[i].contexts
      ensures ys[i].frees[o] == 1
    {
      assert ContextPlaced(ys[i], o) && KernelPlaced(ys[i], o);
    }
  }

  /** From the k-th state on only internal steps are taken. */
  ghost predicate IsInternalFrom(ys: seq<State>, actions: seq<Action>, k: nat)
    requires |ys| == |actions| + 1
  {
    forall i :: k <= i < |actions| ==> IsInternal(ys[i], actions[i])
  }

  lemma LongerRun(ys: seq<State>, actions: seq<Action>, a: Action)
    requires IsRun(ys, actions) && Enabled(ys[|actions|], a)
    ensures IsRun(ys + [Next(ys[|actions|], a)], actions + [a])
  {
    var ys1, actions1 := ys + [Next(ys[|actions|], a)], actions + [a];
    forall i | 0 <= i < |actions1|
      ensures Enabled(ys1[i], actions1[i]) && ys1[i + 1] == Next(ys1[i], actions1[i])
    {
      if i < |actions| {
        assert ys1[i] == ys[i] && ys1[i + 1] == ys[i + 1] && actions1[i] == actions[i];
      }
    }
  }

  /** Every run can be brought to rest by internal steps alone. */
  lemma {:induction false} ComesToRest(ys: seq<State>, actions: seq<Action>) returns (ys1: seq<State>, actions1: seq<Action>)
    requires IsRun(ys, actions)
    ensures IsRun(ys1, actions1) && ys <= ys1 && actions <= actions1
    ensures IsInternalFrom(ys1, actions1, |actions|) && AtRest(ys1[|actions1|])
    ensures ys1[|actions1|].threads.Keys == ys[|actions|].threads.Keys
    decreases LeftAfter(ys, actions).jobs, LeftAfter(ys, actions).effects, LeftAfter(ys, actions).work
  {
    var y := ys[|actions|];
    if a :| Enabled(y, a) && IsInternal(y, a) {
      LongerRunShrinks(ys, actions, a);
      ys1, actions1 := ComesToRest(ys + [Next(y, a)], actions + [a]);
      FromTheStepBefore(ys, actions, a, ys1, actions1);
    } else {
      ys1, actions1 := ys, actions;
    }
  }

  /** What is left to do at the end of a run. */
  ghost function LeftAfter(ys: seq<State>, actions: seq<Action>): Measure
    requires IsRun(ys, actions)
  {
    RunIsSafe(ys, actions, |actions|);
    Left(ys[|actions|])
  }

  lemma LongerRunShrinks(ys: seq<State>, actions: seq<Action>, a: Action)
    requires IsRun(ys, actions) && Enabled(ys[|actions|], a) && IsInternal(ys[|actions|], a)
    ensures var y := ys[|actions|];
            && IsRun(ys + [Next(y, a)], actions + [a]) && Next(y, a).threads.Keys == y.threads.Keys
            && Less(LeftAfter(ys + [Next(y, a)], actions + [a]), LeftAfter(ys, actions))
  {
    var y := ys[|actions|];
    RunIsSafe(ys, actions, |actions|);
    NextKeepsSafe(y, a);
    InternalStepShrinks(y, a);
    ThreadsStay(y, a);
    LongerRun(ys, actions, a);
  }

  lemma FromTheStepBefore(ys: seq<State>, actions: seq<Action>, a: Action, ys1: seq<State>, actions1: seq<Action>)
    requires |ys| == |actions| + 1 && |ys1| == |actions1| + 1 && IsInternal(ys[|actions|], a)
    requires ys <= ys1 && |actions| < |actions1| && actions + [a] <= actions1 && IsInternalFrom(ys1, actions1, |actions| + 1)
    ensures actions <= actions1 && IsInternalFrom(ys1, actions1, |actions|)
  {
    assert ys1[|actions|] == ys[|actions|] && actions1[|actions|] == a;
  }

  lemma ThreadsStay(y: State, a: Action)
    requires Enabled(y, a)
    ensures Next(y, a).threads.Keys == y.threads.Keys
  {
  }

  /** Every run can be brought by internal steps alone to a state that has leaked nothing, unless a job dangles. */
  lemma RunComesClean(ys: seq<State>, actions: seq<Action>, n: nat) returns (ys1: seq<State>, actions1: seq<Action>)
    requires IsRun(ys, actions) && Worker(n) in ys[|actions|].threads
    ensures IsRun(ys1, actions1) && ys <= ys1 && actions <= actions1 && IsInternalFrom(ys1, actions1, |actions|)
    ensures var end := ys1[|actions1|]; AtRest(end) && (IsBlocked(end) || (Quiescent(end) && IsClean(end)))
  {
    ys1, actions1 := ComesToRest(ys, actions);
    var end := ys1[|actions1|];
    assert Worker(n) in end.threads.Keys;
    RunIsSafe(ys1, actions1, |actions1|);
    if !IsBlocked(end) {
      RestIsQuiescent(end, n);
      RestIsClean(ys1, actions1, |actions1|, n);
    }
  }

  /** A run that never ends, from any state. */
  ghost predicate IsEndless(ys: nat -> State, actions: nat -> Action) {
    forall i: nat :: Enabled(ys(i), actions(i)) && ys(i + 1) == Next(ys(i), actions(i))
  }

  lemma {:induction false} EndlessIsSafe(ys: nat -> State, actions: nat -> Action, i: nat)
    requires IsEndless(ys, actions) && Safe(ys(0))
    ensures Safe(ys(i))
  {
    if i > 0 {
      EndlessIsSafe(ys, actions, i - 1);
      NextKeepsSafe(ys(i - 1), actions(i - 1));
    }
  }

  /** The server never spins: whatever internal steps are taken, and in whatever order, they come to an end. A run
      that never ends, from any reachable state, has again and again a connection or a byte coming in or a
      receive completing on an open socket. No fairness is asked of the scheduler. */
  lemma {:induction false} NeverSpins(ys: nat -> State, actions: nat -> Action, n: nat) returns (i: nat)
    requires IsEndless(ys, actions) && Safe(ys(0))
    ensures i >= n && !IsInternal(ys(i), actions(i))
    decreases (EndlessIsSafe(ys, actions, n); Left(ys(n)).jobs),
              (EndlessIsSafe(ys, actions, n); Left(ys(n)).effects),
              (EndlessIsSafe(ys, actions, n); Left(ys(n)).work)
  {
    i := n;
    EndlessIsSafe(ys, actions, n);
    if IsInternal(ys(n), actions(n)) {
      InternalStepShrinks(ys(n), actions(n));
      EndlessIsSafe(ys, actions, n + 1);
      i := NeverSpins(ys, actions, n + 1);
    }
  }
}
