/**
 Why sessions close: a receive or a send that fails or brings nothing, a kernel call that fails, bytes that are no
 packets or are unknown ones, and a job that asks for it. Each of these closes its session, and nothing else does.
 */
module ServerReasons {
  import opened Bytes
  import opened Framing
  import opened Protocol
  import opened Lobby
  import opened Session
  import opened Server
  import opened ServerShape
  import opened ServerBaton
  import opened ServerEnding
  import opened ServerContexts
  import opened ServerOrder
  import opened ServerTurns
  import opened ServerSafe
  import opened ServerDuty
  import opened ServerTheorems
  import opened EndToEnd
  import opened ServerServes

  // ---- the bytes ----------------------------------------------------------------------------------

  /** These bytes are known packets and the beginning of a packet. */
  predicate MakesSense(wire: seq<byte>) {
    !Parse(wire).bad && AllKnown(Parse(wire).packets)
  }

  /** Bytes that are not, stay so, whatever follows. */
  lemma SenseIsLost(wire: seq<byte>, more: seq<byte>)
    requires !MakesSense(wire)
    ensures !MakesSense(wire + more)
  {
    ParseAppend(wire, more);
    var ps := Parse(wire).packets;
    if !AllKnown(ps) {
      var i :| 0 <= i < |ps| && !Known(ps[i].id);
      assert Parse(wire + more).packets[i] == ps[i];
    }
  }

  lemma ScanMakesSense(d: Sess)
    requires Stream(d, []) && d.wire == d.fed && MakesSense(d.wire)
    ensures !Framing.Malformed(d.ring)
  {
    assert d.ring[0..] == d.ring;
    ParseOfPrintAll(d.taken, d.ring);
    if Framing.Malformed(d.ring) {
      ParseNothing(d.ring);
    }
  }

  lemma GateMakesSense(d: Sess, p: Packet)
    requires Stream(d, [p]) && d.fed <= d.wire && MakesSense(d.wire)
    ensures p.Valid() && Known(p.id)
  {
    TakenIsPrefix(d, [p]);
    var n := |d.taken| - 1;
    assert Parse(d.wire).packets[n] == d.taken[n] == p;
  }

  /** While the bytes make sense no thread comes upon a packet or a header that does not. */
  lemma ScansMakeSense(y: State, t: Tid)
    requires Safe(y) && t in y.threads && y.threads[t] != Idle && y.threads[t].s in y.sessions
    requires MakesSense(y.sessions[y.threads[t].s].wire)
    ensures ScansClean(y.threads[t], y.sessions[y.threads[t].s])
  {
    var pc, d := y.threads[t], y.sessions[y.threads[t].s];
    if HasBaton(pc) {
      StreamOf(y, t);
      match pc
      case Scanning(_, at) =>
        if at.FrameScan? { ScanMakesSense(d); }
        if at.ProcGate? { GateMakesSense(d, at.p); }
      case Receiving(s, at, ok) => if at == RecvFill { NeverOverflows(s, d, ok); }
      case _ =>
    }
  }

  // ---- bound to end -------------------------------------------------------------------------------

  ghost predicate ThreadMust(y: State, t: Tid, s: Sid) {
    s in y.sessions && MustClose(PcOf(y, t), y.sessions[s], s)
  }

  /** A completion that closes s waits in the queue. */
  ghost predicate QueueMust(y: State, o: OpId, s: Sid) {
    && s in y.sessions && o in y.queue && y.queue[o].IoDone? && y.queue[o].s == s
    && (!y.queue[o].ok || (y.queue[o].isRecv && y.sessions[s].buffer == []))
  }

  /** s is no longer open; or its bytes make no sense; or a thread is bound to close it, or whoever takes a completion. */
  ghost predicate Ends(y: State, s: Sid) {
    && s in y.sessions
    && (|| y.sessions[s].state != Connected || !MakesSense(y.sessions[s].wire)
        || (exists t :: ThreadMust(y, t, s)) || (exists o :: QueueMust(y, o, s)))
  }

  /** This step is a reason for s to close. */
  ghost predicate GivesReason(y: State, a: Action, s: Sid) {
    s in y.sessions &&
    match a
    case Complete(o, ok, data) =>
      && o in y.kernel && y.kernel[o].s == s
      && (!ok || data == [] || (y.kernel[o].isRecv && !MakesSense(y.sessions[s].wire + data)))
    case Run(t, fails) => fails && IsCalling(PcOf(y, t), s)
    case Pop(env) => y.done < |y.log| && Step(y.lobby, y.log[y.done], env).Done? && Close(s) in Step(y.lobby, y.log[y.done], env).effects
    case _ => false
  }

  lemma RunStaysClosed(y: State, t: Tid, fails: bool, s: Sid)
    requires Safe(y) && CanRun(y, t) && s in y.sessions && y.sessions[s].state != Connected
    ensures s in RunStep(y, t, fails).sessions && RunStep(y, t, fails).sessions[s].state != Connected
  {
    TurnsOf(y, t, fails);
  }

  lemma StaysClosed(y: State, a: Action, s: Sid)
    requires Safe(y) && Enabled(y, a) && s in y.sessions && y.sessions[s].state != Connected
    ensures s in Next(y, a).sessions && Next(y, a).sessions[s].state != Connected
  {
    if a.Run? {
      RunStaysClosed(y, a.t, a.fails, s);
    }
  }

  lemma SessionStays(y: State, a: Action, s: Sid)
    requires Safe(y) && Enabled(y, a) && s in y.sessions
    ensures s in Next(y, a).sessions
  {
  }

  lemma QueueGrows(y: State, t: Tid, fails: bool)
    requires Safe(y) && CanRun(y, t)
    ensures forall o :: o in y.queue ==> o in RunStep(y, t, fails).queue && RunStep(y, t, fails).queue[o] == y.queue[o]
  {
    NextIsFresh(y);
  }

  lemma RunnerMust(y: State, t: Tid, fails: bool, s: Sid)
    requires Safe(y) && CanRun(y, t) && IsOpen(RunStep(y, t, fails), s)
    requires ThreadMust(y, t, s) || (fails && IsCalling(PcOf(y, t), s))
    ensures ThreadMust(RunStep(y, t, fails), t, s)
  {
    var pc := y.threads[t];
    assert ThreadOk(y, t) && ThreadEnding(y, t);
    var d := y.sessions[pc.s];
    if Close(s) in EffectsOf(pc) {
      AskedGoesOn(t, pc, d, fails, y.nextOp, |y.log|, s);
    } else {
      DutyGoesOn(t, pc, d, fails, y.nextOp, |y.log|, s);
    }
  }

  /** What a waiting thread or completion is bound by stays: the receive buffer is its own. */
  lemma OthersKeepBuffer(y: State, t: Tid, fails: bool, s: Sid)
    requires Safe(y) && CanRun(y, t) && IsOpen(y, s) && y.sessions[s].baton != InThread(t) && IsOpen(RunStep(y, t, fails), s)
    ensures RunStep(y, t, fails).sessions[s].buffer == y.sessions[s].buffer
  {
    OthersLeave(y, t, fails, s);
  }

  lemma WaiterMust(y: State, u: Tid, fails: bool, t: Tid, s: Sid)
    requires Safe(y) && CanRun(y, u) && t != u && ThreadMust(y, t, s) && IsOpen(y, s) && IsOpen(RunStep(y, u, fails), s)
    ensures ThreadMust(RunStep(y, u, fails), t, s)
  {
    assert PcOf(RunStep(y, u, fails), t) == PcOf(y, t);
    if PcOf(y, t).Receiving? {
      assert ThreadBaton(y, t);
      OthersKeepBuffer(y, u, fails, s);
    } else {
      SameMust(PcOf(y, t), y.sessions[s], RunStep(y, u, fails).sessions[s], s);
    }
  }

  lemma SameMust(pc: Pc, d: Sess, d1: Sess, s: Sid)
    requires MustClose(pc, d, s) && (!pc.Receiving? || d1.buffer == d.buffer)
    ensures MustClose(pc, d1, s)
  {
  }

  lemma QueuedMust(y: State, t: Tid, fails: bool, o: OpId, s: Sid)
    requires Safe(y) && CanRun(y, t) && QueueMust(y, o, s) && IsOpen(y, s) && IsOpen(RunStep(y, t, fails), s)
    ensures QueueMust(RunStep(y, t, fails), o, s)
  {
    QueueGrows(y, t, fails);
    assert QueueBaton(y, o);
    if y.queue[o].isRecv {
      OthersKeepBuffer(y, t, fails, s);
    }
  }

  lemma CompleteMust(y: State, o: OpId, ok: bool, data: seq<byte>, t: Tid, s: Sid)
    requires Safe(y) && Enabled(y, Complete(o, ok, data)) && ThreadMust(y, t, s)
    ensures ThreadMust(CompleteStep(y, o, ok, data), t, s)
  {
    assert PcOf(CompleteStep(y, o, ok, data), t) == PcOf(y, t) && ThreadBaton(y, t) && KernelBaton(y, o);
    SameMust(PcOf(y, t), y.sessions[s], CompleteStep(y, o, ok, data).sessions[s], s);
  }

  lemma CompleteQueued(y: State, o: OpId, ok: bool, data: seq<byte>, p: OpId, s: Sid)
    requires Safe(y) && Enabled(y, Complete(o, ok, data)) && QueueMust(y, p, s)
    ensures QueueMust(CompleteStep(y, o, ok, data), p, s)
  {
    assert QueueBaton(y, p) && KernelBaton(y, o) && KernelPlaced(y, o);
  }

  /** The thread that takes a job or a completion up was idle; the rest are where they were. */
  lemma StarterMust(y: State, y1: State, u: Tid, t: Tid, s: Sid)
    requires u in y.threads && y.threads[u] == Idle && u in y1.threads && y1.threads == y.threads[u := y1.threads[u]]
    requires ThreadMust(y, t, s) && s in y1.sessions && y1.sessions[s].buffer == y.sessions[s].buffer
    ensures ThreadMust(y1, t, s)
  {
    SameMust(PcOf(y, t), y.sessions[s], y1.sessions[s], s);
  }

  /** A thread bound to close a session has closed it, or somebody else has, or it is bound to still. */
  lemma StepKeepsDuty(y: State, a: Action, t: Tid, s: Sid)
    requires Safe(y) && Enabled(y, a) && ThreadMust(y, t, s) && IsOpen(y, s) && IsOpen(Next(y, a), s)
    ensures ThreadMust(Next(y, a), t, s)
  {
    match a
    case Accept(r) => AcceptMust(y, r, t, s);
    case Run(u, fails) => if u == t { RunnerMust(y, t, fails, s); } else { WaiterMust(y, u, fails, t, s); }
    case Complete(o, ok, data) => CompleteMust(y, o, ok, data, t, s);
    case Take(n, o) => TakeMust(y, n, o, t, s);
    case Pop(env) => PopMust(y, env, t, s);
  }

  lemma AcceptMust(y: State, r: Sid, t: Tid, s: Sid)
    requires Enabled(y, Accept(r)) && ThreadMust(y, t, s)
    ensures ThreadMust(AcceptNew(y, r), t, s)
  {
    StarterMust(y, AcceptNew(y, r), Acceptor, t, s);
  }

  lemma TakeMust(y: State, n: nat, o: OpId, t: Tid, s: Sid)
    requires Enabled(y, Take(n, o)) && ThreadMust(y, t, s)
    ensures ThreadMust(TakeStep(y, n, o), t, s)
  {
    StarterMust(y, TakeStep(y, n, o), Worker(n), t, s);
  }

  lemma PopMust(y: State, env: Env, t: Tid, s: Sid)
    requires Enabled(y, Pop(env)) && ThreadMust(y, t, s)
    ensures ThreadMust(PopStep(y, env), t, s)
  {
    StarterMust(y, PopStep(y, env), GameThread, t, s);
  }

  /** A completion that closes its session waits, or is taken by a worker that is bound to. */
  lemma StepKeepsQueued(y: State, a: Action, o: OpId, s: Sid)
    requires Safe(y) && Enabled(y, a) && QueueMust(y, o, s) && IsOpen(y, s) && IsOpen(Next(y, a), s)
    ensures QueueMust(Next(y, a), o, s) || (a.Take? && a.o == o && ThreadMust(Next(y, a), Worker(a.n), s))
  {
    match a
    case Accept(_) =>
    case Run(t, fails) => QueuedMust(y, t, fails, o, s);
    case Complete(p, ok, data) => CompleteQueued(y, p, ok, data, o, s);
    case Take(n, p) => TakeQueued(y, n, p, o, s);
    case Pop(env) => PopQueued(y, env, o, s);
  }

  lemma TakeQueued(y: State, n: nat, p: OpId, o: OpId, s: Sid)
    requires Enabled(y, Take(n, p)) && QueueMust(y, o, s)
    ensures QueueMust(TakeStep(y, n, p), o, s) || (p == o && ThreadMust(TakeStep(y, n, p), Worker(n), s))
  {
  }

  lemma PopQueued(y: State, env: Env, o: OpId, s: Sid)
    requires Enabled(y, Pop(env)) && QueueMust(y, o, s)
    ensures QueueMust(PopStep(y, env), o, s)
  {
  }

  lemma StepKeepsSense(y: State, a: Action, s: Sid)
    requires Safe(y) && Enabled(y, a) && s in y.sessions && !MakesSense(y.sessions[s].wire)
    ensures s in Next(y, a).sessions && !MakesSense(Next(y, a).sessions[s].wire)
  {
    SessionStays(y, a, s);
    StepArrives(y, a, s);
    SenseIsLost(y.sessions[s].wire, Arrives(y, a, s));
  }

  lemma StepKeepsEnds(y: State, a: Action, s: Sid)
    requires Safe(y) && Enabled(y, a) && Ends(y, s)
    ensures Ends(Next(y, a), s)
  {
    SessionStays(y, a, s);
    if y.sessions[s].state != Connected {
      StaysClosed(y, a, s);
    } else if !MakesSense(y.sessions[s].wire) {
      StepKeepsSense(y, a, s);
    } else if IsOpen(Next(y, a), s) {
      if t :| ThreadMust(y, t, s) {
        StepKeepsDuty(y, a, t, s);
      } else {
        var o :| QueueMust(y, o, s);
        StepKeepsQueued(y, a, o, s);
      }
    }
  }

  // ---- a reason, and only a reason, ends a session ------------------------------------------------

  lemma CompletionEnds(y: State, o: OpId, ok: bool, data: seq<byte>, s: Sid)
    requires Safe(y) && Enabled(y, Complete(o, ok, data)) && GivesReason(y, Complete(o, ok, data), s)
    ensures Ends(CompleteStep(y, o, ok, data), s)
  {
    if !ok || data == [] {
      assert QueueMust(CompleteStep(y, o, ok, data), o, s);
    }
  }

  lemma FailureEnds(y: State, t: Tid, s: Sid)
    requires Safe(y) && Enabled(y, Run(t, true)) && GivesReason(y, Run(t, true), s)
    ensures Ends(RunStep(y, t, true), s)
  {
    SessionStays(y, Run(t, true), s);
    if IsOpen(RunStep(y, t, true), s) {
      RunnerMust(y, t, true, s);
    }
  }

  lemma ReasonEnds(y: State, a: Action, s: Sid)
    requires Safe(y) && Enabled(y, a) && GivesReason(y, a, s)
    ensures Ends(Next(y, a), s)
  {
    match a
    case Complete(o, ok, data) => CompletionEnds(y, o, ok, data, s);
    case Run(t, fails) => FailureEnds(y, t, s);
    case Pop(env) => assert ThreadMust(PopStep(y, env), GameThread, s);
  }

  /** Nothing about s has changed that could be a reason; thread u, if any, has moved without one. */
  ghost predicate SpareElsewhere(y: State, y1: State, u: Tid, s: Sid) {
    && IsOpen(y, s) && IsOpen(y1, s) && MakesSense(y1.sessions[s].wire)
    && (forall t :: t != u ==> PcOf(y1, t) == PcOf(y, t)) && !ThreadMust(y1, u, s)
    && (forall o :: o in y1.queue && y1.queue[o].IoDone? && y1.queue[o].s == s ==> o in y.queue && y1.queue[o] == y.queue[o])
  }

  /** The receive buffer of s is as it was, or not empty, or with thread u. */
  ghost predicate SpareBuffer(y: State, y1: State, u: Tid, s: Sid)
    requires s in y.sessions && s in y1.sessions
  {
    || y1.sessions[s].buffer == y.sessions[s].buffer || y1.sessions[s].buffer != []
    || y.sessions[s].baton == InThread(u)
  }

  lemma SparedIsSpared(y: State, y1: State, u: Tid, s: Sid)
    requires Batons(y) && !Ends(y, s) && SpareElsewhere(y, y1, u, s) && SpareBuffer(y, y1, u, s)
    ensures !Ends(y1, s)
  {
    forall t ensures !ThreadMust(y1, t, s) {
      assert !ThreadMust(y, t, s) && ThreadBaton(y, t);
    }
    forall o ensures !QueueMust(y1, o, s) {
      assert !QueueMust(y, o, s) && QueueBaton(y, o);
    }
  }

  lemma RunSparesItsOwn(y: State, t: Tid, fails: bool)
    requires Safe(y) && CanRun(y, t) && !Ends(y, y.threads[t].s) && !GivesReason(y, Run(t, fails), y.threads[t].s)
    ensures var turn, s := TurnAt(y, t, fails), y.threads[t].s; turn.d.state == Connected && !MustClose(turn.pc, turn.d, s)
  {
    var pc := y.threads[t];
    assert !ThreadMust(y, t, pc.s) && ThreadOk(y, t) && SessionEnding(y, pc.s);
    ScansMakeSense(y, t);
    NoDutyArises(t, pc, y.sessions[pc.s], fails, y.nextOp, |y.log|, pc.s);
  }

  lemma RunSparesOthers(y: State, t: Tid, fails: bool, s: Sid)
    requires Safe(y) && CanRun(y, t) && s in y.sessions && !Ends(y, s) && y.threads[t].s != s
    ensures !MustClose(TurnAt(y, t, fails).pc, y.sessions[s], s)
  {
    var pc := y.threads[t];
    assert !ThreadMust(y, t, s) && ThreadOk(y, t);
    TurnsOf(y, t, fails);
    NoDutyFromAfar(t, pc, y.sessions[pc.s], fails, y.nextOp, |y.log|, s, y.sessions[s]);
  }

  lemma RunSpares(y: State, t: Tid, fails: bool, s: Sid)
    requires Safe(y) && CanRun(y, t) && s in y.sessions && !Ends(y, s) && !GivesReason(y, Run(t, fails), s)
    ensures IsOpen(RunStep(y, t, fails), s) && !ThreadMust(RunStep(y, t, fails), t, s)
  {
    if y.threads[t].s == s {
      RunSparesItsOwn(y, t, fails);
    } else {
      RunSparesOthers(y, t, fails, s);
    }
  }

  lemma RunQueues(y: State, t: Tid, fails: bool)
    requires Safe(y) && CanRun(y, t)
    ensures var y1 := RunStep(y, t, fails);
            && (forall o :: o in y1.queue && y1.queue[o].IoDone? ==> o in y.queue && y1.queue[o] == y.queue[o])
            && (forall u :: u != t ==> PcOf(y1, u) == PcOf(y, u))
  {
  }

  lemma RunSparesBuffer(y: State, t: Tid, fails: bool, s: Sid)
    requires Safe(y) && CanRun(y, t) && IsOpen(y, s) && IsOpen(RunStep(y, t, fails), s)
    ensures SpareBuffer(y, RunStep(y, t, fails), t, s)
  {
    if y.sessions[s].baton != InThread(t) {
      OthersLeave(y, t, fails, s);
    }
  }

  lemma RunIsNoEnd(y: State, t: Tid, fails: bool, s: Sid)
    requires Safe(y) && CanRun(y, t) && s in y.sessions && !Ends(y, s) && !GivesReason(y, Run(t, fails), s)
    ensures !Ends(RunStep(y, t, fails), s)
  {
    RunSpares(y, t, fails, s);
    RunQueues(y, t, fails);
    RunSparesBuffer(y, t, fails, s);
    StepArrives(y, Run(t, fails), s);
    assert y.sessions[s].wire + [] == y.sessions[s].wire;
    SparedIsSpared(y, RunStep(y, t, fails), t, s);
  }

  lemma CompleteIsNoEnd(y: State, o: OpId, ok: bool, data: seq<byte>, s: Sid)
    requires Safe(y) && Enabled(y, Complete(o, ok, data)) && s in y.sessions && !Ends(y, s)
    requires !GivesReason(y, Complete(o, ok, data), s)
    ensures !Ends(CompleteStep(y, o, ok, data), s)
  {
    var y1 := CompleteStep(y, o, ok, data);
    assert IsOpen(y1, s) && MakesSense(y1.sessions[s].wire);
    forall t ensures !ThreadMust(y1, t, s) {
      assert !ThreadMust(y, t, s) && PcOf(y1, t) == PcOf(y, t);
    }
    forall p ensures !QueueMust(y1, p, s) {
      assert !QueueMust(y, p, s);
    }
  }

  lemma TakeIsNoEnd(y: State, n: nat, o: OpId, s: Sid)
    requires Safe(y) && Enabled(y, Take(n, o)) && s in y.sessions && !Ends(y, s)
    ensures !Ends(TakeStep(y, n, o), s)
  {
    TakeSpares(y, n, o, s);
    SparedIsSpared(y, TakeStep(y, n, o), Worker(n), s);
  }

  lemma TakeSpares(y: State, n: nat, o: OpId, s: Sid)
    requires Enabled(y, Take(n, o)) && s in y.sessions && !Ends(y, s)
    ensures SpareElsewhere(y, TakeStep(y, n, o), Worker(n), s) && SpareBuffer(y, TakeStep(y, n, o), Worker(n), s)
  {
    assert !QueueMust(y, o, s);
    var c := y.queue[o];
    assert !MustClose(Dequeued(c, o), TakeStep(y, n, o).sessions[s], s);
  }

  lemma PopIsNoEnd(y: State, env: Env, s: Sid)
    requires Safe(y) && Enabled(y, Pop(env)) && s in y.sessions && !Ends(y, s) && !GivesReason(y, Pop(env), s)
    ensures !Ends(PopStep(y, env), s)
  {
    PopSpares(y, env, s);
    SparedIsSpared(y, PopStep(y, env), GameThread, s);
  }

  lemma PopSpares(y: State, env: Env, s: Sid)
    requires Enabled(y, Pop(env)) && s in y.sessions && !Ends(y, s) && !GivesReason(y, Pop(env), s)
    ensures SpareElsewhere(y, PopStep(y, env), GameThread, s) && SpareBuffer(y, PopStep(y, env), GameThread, s)
  {
    var job, fx := y.log[y.done], Step(y.lobby, y.log[y.done], env).effects;
    assert !MustClose(Gaming(job.s, GameRun(fx, job.Disconnect?)), PopStep(y, env).sessions[s], s);
  }

  lemma AcceptIsNoEnd(y: State, r: Sid, s: Sid)
    requires Safe(y) && Enabled(y, Accept(r)) && s in AcceptNew(y, r).sessions && !Ends(y, s)
    ensures !Ends(AcceptNew(y, r), s)
  {
    if r == s {
      FreshIsNoEnd(y, s);
    } else {
      SparedIsSpared(y, AcceptNew(y, r), Acceptor, s);
    }
  }

  lemma FreshIsNoEnd(y: State, s: Sid)
    requires Safe(y) && Enabled(y, Accept(s))
    ensures !Ends(AcceptNew(y, s), s)
  {
    var y1 := AcceptNew(y, s);
    ParseNothing([]);
    forall t ensures !ThreadMust(y1, t, s) {
      assert ThreadOk(y, t);
    }
    forall o ensures !QueueMust(y1, o, s) {
      assert QueuePlaced(y, o);
    }
  }

  lemma OnlyReasonsEnd(y: State, a: Action, s: Sid)
    requires Safe(y) && Enabled(y, a) && s in Next(y, a).sessions && !Ends(y, s) && !GivesReason(y, a, s)
    ensures !Ends(Next(y, a), s)
  {
    match a
    case Accept(r) => AcceptIsNoEnd(y, r, s);
    case Run(t, fails) => RunIsNoEnd(y, t, fails, s);
    case Complete(o, ok, data) => CompleteIsNoEnd(y, o, ok, data, s);
    case Take(n, o) => TakeIsNoEnd(y, n, o, s);
    case Pop(env) => PopIsNoEnd(y, env, s);
  }

  // ---- over runs ----------------------------------------------------------------------------------

  /** By the i-th state there has been a reason for s to close. */
  ghost predicate HadReason(ys: seq<State>, actions: seq<Action>, i: nat, s: Sid)
    requires i <= |actions| < |ys|
  {
    exists k :: 0 <= k < i && GivesReason(ys[k], actions[k], s)
  }

  lemma HadReasonStep(ys: seq<State>, actions: seq<Action>, i: nat, s: Sid)
    requires i < |actions| < |ys|
    ensures HadReason(ys, actions, i + 1, s) <==> HadReason(ys, actions, i, s) || GivesReason(ys[i], actions[i], s)
  {
  }

  lemma OneStepEnds(ys: seq<State>, actions: seq<Action>, k: nat, s: Sid)
    requires IsRun(ys, actions) && k < |actions|
    ensures Ends(ys[k], s) || GivesReason(ys[k], actions[k], s) ==> Ends(ys[k + 1], s)
    ensures s in ys[k + 1].sessions && !Ends(ys[k], s) && !GivesReason(ys[k], actions[k], s) ==> !Ends(ys[k + 1], s)
  {
    RunIsSafe(ys, actions, k);
    if Ends(ys[k], s) {
      StepKeepsEnds(ys[k], actions[k], s);
    } else if GivesReason(ys[k], actions[k], s) {
      ReasonEnds(ys[k], actions[k], s);
    } else if s in ys[k + 1].sessions {
      OnlyReasonsEnd(ys[k], actions[k], s);
    }
  }

  /** In every state of every run a session is ended, or about to be, exactly when there has been a reason. */
  lemma {:induction false} EndsForAReason(ys: seq<State>, actions: seq<Action>, i: nat, s: Sid)
    requires IsRun(ys, actions) && i < |ys|
    ensures Ends(ys[i], s) <==> HadReason(ys, actions, i, s)
  {
    if i > 0 {
      EndsForAReason(ys, actions, i - 1, s);
      HadReasonStep(ys, actions, i - 1, s);
      OneStepEnds(ys, actions, i - 1, s);
    }
  }

  /** No session is closed without a reason: a receive or send of it that failed or brought nothing, a kernel call for
      it that failed, bytes received on it that are no packets or unknown ones, or a job that asks for it. */
  lemma ClosesForAReason(ys: seq<State>, actions: seq<Action>, i: nat, s: Sid)
    requires IsRun(ys, actions) && i < |ys| && s in ys[i].sessions && ys[i].sessions[s].state != Connected
    ensures HadReason(ys, actions, i, s)
  {
    EndsForAReason(ys, actions, i, s);
  }

  /** s is closed, or t is bound to close it. */
  ghost predicate SeesToIt(y: State, t: Tid, s: Sid) {
    s in y.sessions && (y.sessions[s].state != Connected || ThreadMust(y, t, s))
  }

  lemma OneStepSeesToIt(ys: seq<State>, actions: seq<Action>, k: nat, t: Tid, s: Sid)
    requires IsRun(ys, actions) && k < |actions| && SeesToIt(ys[k], t, s)
    ensures SeesToIt(ys[k + 1], t, s)
  {
    RunIsSafe(ys, actions, k);
    SessionStays(ys[k], actions[k], s);
    if ys[k].sessions[s].state != Connected {
      StaysClosed(ys[k], actions[k], s);
    } else if IsOpen(ys[k + 1], s) {
      StepKeepsDuty(ys[k], actions[k], t, s);
    }
  }

  /** A thread that is bound to close a session has seen to it by the time it is free, whoever has closed it. */
  lemma {:induction false} DutyIsDone(ys: seq<State>, actions: seq<Action>, i: nat, j: nat, t: Tid, s: Sid)
    requires IsRun(ys, actions) && i <= j < |ys| && SeesToIt(ys[i], t, s)
    ensures SeesToIt(ys[j], t, s)
  {
    if i < j {
      DutyIsDone(ys, actions, i, j - 1, t, s);
      OneStepSeesToIt(ys, actions, j - 1, t, s);
    }
  }

  /** A send that failed closes its session: once the worker that took its completion is idle again, the session is
      no longer open, and stays so. */
  lemma FailedSendCloses(ys: seq<State>, actions: seq<Action>, i: nat, j: nat, t: Tid, s: Sid, at: SentAt, o: OpId)
    requires IsRun(ys, actions) && i <= j < |ys|
    requires t in ys[i].threads && ys[i].threads[t] == Sent(s, at, o, false) && PcOf(ys[j], t) == Idle
    ensures s in ys[j].sessions && ys[j].sessions[s].state != Connected
  {
    RunIsSafe(ys, actions, i);
    assert ThreadOk(ys[i], t);
    DutyIsDone(ys, actions, i, j, t, s);
  }

  /** So does a receive that failed. */
  lemma FailedReceiveCloses(ys: seq<State>, actions: seq<Action>, i: nat, j: nat, t: Tid, s: Sid)
    requires IsRun(ys, actions) && i <= j < |ys|
    requires t in ys[i].threads && ys[i].threads[t] == Receiving(s, RecvFlag, false) && PcOf(ys[j], t) == Idle
    ensures s in ys[j].sessions && ys[j].sessions[s].state != Connected
  {
    RunIsSafe(ys, actions, i);
    assert ThreadOk(ys[i], t);
    DutyIsDone(ys, actions, i, j, t, s);
  }

  /** s is closed, or the game thread is asked to. */
  ghost predicate AskedOrDone(y: State, s: Sid) {
    s in y.sessions && (y.sessions[s].state != Connected || IsAsked(PcOf(y, GameThread), s))
  }

  lemma GameStaysAsked(y: State, fails: bool, s: Sid)
    requires Safe(y) && CanRun(y, GameThread) && IsAsked(PcOf(y, GameThread), s) && IsOpen(RunStep(y, GameThread, fails), s)
    ensures IsAsked(PcOf(RunStep(y, GameThread, fails), GameThread), s)
  {
    var pc := y.threads[GameThread];
    assert ThreadOk(y, GameThread) && ThreadEnding(y, GameThread);
    if Close(s) in EffectsOf(pc) {
      AskedGoesOn(GameThread, pc, y.sessions[pc.s], fails, y.nextOp, |y.log|, s);
    } else {
      CloseMustClose(GameThread, s, pc.close, pc.ret, y.sessions[s], |y.log|);
    }
  }

  lemma StepKeepsAsked(y: State, a: Action, s: Sid)
    requires Safe(y) && Enabled(y, a) && AskedOrDone(y, s)
    ensures AskedOrDone(Next(y, a), s)
  {
    SessionStays(y, a, s);
    if y.sessions[s].state != Connected {
      StaysClosed(y, a, s);
    } else if a == Run(GameThread, true) || a == Run(GameThread, false) {
      if IsOpen(RunStep(y, GameThread, a.fails), s) {
        GameStaysAsked(y, a.fails, s);
      }
    } else {
      OthersMoveNot(y, a);
    }
  }

  lemma OthersMoveNot(y: State, a: Action)
    requires Enabled(y, a) && PcOf(y, GameThread) != Idle && !(a.Run? && a.t == GameThread)
    ensures PcOf(Next(y, a), GameThread) == PcOf(y, GameThread)
  {
  }

  lemma OneStepKeepsAsked(ys: seq<State>, actions: seq<Action>, k: nat, s: Sid)
    requires IsRun(ys, actions) && k < |actions| && AskedOrDone(ys[k], s)
    ensures AskedOrDone(ys[k + 1], s)
  {
    RunIsSafe(ys, actions, k);
    StepKeepsAsked(ys[k], actions[k], s);
  }

  lemma {:induction false} AskedIsDone(ys: seq<State>, actions: seq<Action>, i: nat, j: nat, s: Sid)
    requires IsRun(ys, actions) && i <= j < |ys| && AskedOrDone(ys[i], s)
    ensures AskedOrDone(ys[j], s)
  {
    if i < j {
      AskedIsDone(ys, actions, i, j - 1, s);
      OneStepKeepsAsked(ys, actions, j - 1, s);
    }
  }

  lemma PopAsks(y: State, env: Env, s: Sid)
    requires Safe(y) && Enabled(y, Pop(env)) && Close(s) in Step(y.lobby, y.log[y.done], env).effects
    ensures AskedOrDone(PopStep(y, env), s)
  {
    var o := Step(y.lobby, y.log[y.done], env);
    HandledOf(y.lobby, y.log[y.done], env);
    PlayersStaySessions(y, o.lobby, y.log[y.done]);
    PoppedAsks(y, o.lobby, o.effects, s);
  }

  lemma PoppedAsks(y: State, l: Lobby, fx: seq<Effect>, s: Sid)
    requires y.done < |y.log| && y.log[y.done].s in y.sessions && s in y.sessions && Close(s) in fx
    ensures AskedOrDone(Popped(y, l, fx), s)
  {
  }

  /** A job that asks for a session to be closed has it closed: from when the game thread is past that effect, and
      ever after, the session is not open. */
  lemma AskedIsClosed(ys: seq<State>, actions: seq<Action>, i: nat, j: nat, s: Sid)
    requires IsRun(ys, actions) && i < j < |ys| && actions[i].Pop?
    requires ys[i].done < |ys[i].log| && Step(ys[i].lobby, ys[i].log[ys[i].done], actions[i].env).Done?
    requires Close(s) in Step(ys[i].lobby, ys[i].log[ys[i].done], actions[i].env).effects
    ensures s in ys[j].sessions
    ensures ys[j].sessions[s].state != Connected || IsAsked(PcOf(ys[j], GameThread), s)
  {
    RunIsSafe(ys, actions, i);
    PopAsks(ys[i], actions[i].env, s);
    AskedIsDone(ys, actions, i + 1, j, s);
  }

  // ---- exactly then -------------------------------------------------------------------------------

  /** Only known packets are handed over, and none is being handed over that is not. */
  ghost predicate HandsKnown(y: State) {
    && (forall i :: 0 <= i < |y.log| && y.log[i].Deliver? ==> Known(y.log[i].packet.id))
    && (forall t :: t in y.threads && y.threads[t].Scanning? && y.threads[t].frame.ProcPush? ==> Known(y.threads[t].frame.p.id))
  }

  predicate IsHandingOver(pc: Pc) {
    pc.Scanning? && pc.frame.ProcPush?
  }

  lemma FrameHandsKnown(s: Sid, at: FrameAt, d: Sess)
    requires (at.SkipBody? ==> |at.p.body| <= |d.ring|) && (at.ProcPush? ==> Known(at.p.id))
    ensures var turn := FrameStep(s, at, d);
            && (turn.touch.Push? && turn.touch.job.Deliver? ==> Known(turn.touch.job.packet.id))
            && (IsHandingOver(turn.pc) ==> Known(turn.pc.frame.p.id))
  {
    match at
    case FrameScan =>
    case ProcGate(_) =>
    case ProcPush(_) =>
    case SkipBody(_) =>
  }

  lemma CloseHandsNothing(t: Tid, s: Sid, at: CloseAt, ret: Ret, d: Sess, logged: nat)
    ensures var turn := CloseStep(t, s, at, ret, d, logged);
            !(turn.touch.Push? && turn.touch.job.Deliver?) && !IsHandingOver(turn.pc)
  {
    match at
    case CloseCas =>
    case CloseIssue =>
    case CloseSocket =>
    case CloseStore =>
    case ClosePush =>
  }

  lemma SendHandsNothing(s: Sid, at: SendAt, ret: Ret, d: Sess, fails: bool, next: OpId)
    ensures var turn := SendStep(s, at, ret, d, fails, next);
            !(turn.touch.Push? && turn.touch.job.Deliver?) && !IsHandingOver(turn.pc)
  {
    match at
    case SendGate(_) =>
    case SendPost(_) =>
    case SendAdd(_, _) =>
    case SendCall(_, _) =>
    case SendUndo(_) =>
    case SendFree(_) =>
  }

  lemma RecvHandsNothing(s: Sid, at: RecvAt, ok: bool, d: Sess)
    ensures var turn := RecvStep(s, at, ok, d);
            !(turn.touch.Push? && turn.touch.job.Deliver?) && !IsHandingOver(turn.pc)
  {
    match at
    case RecvFlag =>
    case RecvDrop =>
    case RecvCheck =>
    case RecvGate =>
    case RecvFill =>
  }

  lemma TurnHandsKnown(t: Tid, pc: Pc, d: Sess, fails: bool, next: OpId, logged: nat)
    requires MayTurn(pc, d) && (IsHandingOver(pc) ==> Known(pc.frame.p.id))
    ensures var turn := TurnOf(t, pc, d, fails, next, logged);
            && (turn.touch.Push? && turn.touch.job.Deliver? ==> Known(turn.touch.job.packet.id))
            && (IsHandingOver(turn.pc) ==> Known(turn.pc.frame.p.id))
  {
    match pc
    case Accepting(_, _) =>
    case Posting(_, _) =>
    case Receiving(s, at, ok) => RecvHandsNothing(s, at, ok, d);
    case Scanning(s, at) => FrameHandsKnown(s, at, d);
    case Sent(_, _, _, _) =>
    case Ending(s, at, ret) => CloseHandsNothing(t, s, at, ret, d, logged);
    case Sending(s, at, ret) => SendHandsNothing(s, at, ret, d, fails, next);
    case Destroying(_, _) =>
    case Gaming(_, _) =>
  }

  lemma StepHandsKnown(y: State, a: Action)
    requires Enabled(y, a) && HandsKnown(y)
    ensures HandsKnown(Next(y, a))
  {
    if a.Run? {
      TurnHandsKnown(a.t, y.threads[a.t], y.sessions[y.threads[a.t].s], a.fails, y.nextOp, |y.log|);
    }
  }

  lemma {:induction false} RunHandsKnown(ys: seq<State>, actions: seq<Action>, i: nat)
    requires IsRun(ys, actions) && i < |ys|
    ensures HandsKnown(ys[i])
  {
    if i > 0 {
      RunHandsKnown(ys, actions, i - 1);
      StepHandsKnown(ys[i - 1], actions[i - 1]);
    }
  }

  lemma {:induction false} HandedAreKnown(log: seq<Job>, s: Sid)
    requires forall i :: 0 <= i < |log| && log[i].Deliver? ==> Known(log[i].packet.id)
    ensures AllKnown(Handed(log, s))
  {
    if log != [] {
      HandedAreKnown(log[..|log| - 1], s);
    }
  }

  /** When an open session listens again, all that has come in on it makes sense. */
  lemma ListeningMakesSense(y: State, s: Sid)
    requires Safe(y) && HandsKnown(y) && IsOpen(y, s) && IsListening(y, s)
    ensures MakesSense(y.sessions[s].wire)
  {
    assert SessionOrder(y, s);
    TakenIsParse(y.sessions[s]);
    ListeningIsHandedOver(y, s);
    HandedAreKnown(y.log, s);
  }

  /** When nothing is left to do: a session is open exactly when there has been no reason for it to close. */
  lemma OpenWithoutReason(ys: seq<State>, actions: seq<Action>, i: nat, s: Sid)
    requires IsRun(ys, actions) && i < |ys| && s in ys[i].sessions && Quiescent(ys[i])
    ensures ys[i].sessions[s].state == Connected <==> !HadReason(ys, actions, i, s)
  {
    EndsForAReason(ys, actions, i, s);
    RunIsSafe(ys, actions, i);
    RunHandsKnown(ys, actions, i);
    if IsOpen(ys[i], s) {
      QuietListens(ys[i], s);
      ListeningMakesSense(ys[i], s);
      QuietIsFree(ys[i], s);
    }
  }

  lemma QuietListens(y: State, s: Sid)
    requires Safe(y) && Quiescent(y) && IsOpen(y, s)
    ensures IsListening(y, s)
  {
    assert SessionBaton(y, s);
  }

  lemma QuietIsFree(y: State, s: Sid)
    requires Quiescent(y)
    ensures forall t :: !ThreadMust(y, t, s)
    ensures forall o :: !QueueMust(y, o, s)
  {
  }
}
