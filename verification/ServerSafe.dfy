/** Every step of the server, of any thread or of the kernel, keeps all the invariants. */
module ServerSafe {
  import opened Bytes
  import opened Framing
  import opened Protocol
  import opened Lobby
  import opened Session
  import opened Server
  import opened ServerShape
  import opened ServerBaton
  import opened ServerEnding
  import opened ServerRefs
  import opened ServerContexts
  import opened ServerDoom
  import opened ServerLog
  import opened ServerOpening
  import opened ServerWitness
  import opened ServerOrder
  import opened ServerTurns
  import LobbyInvariant
  import LobbyTheorems

  ghost predicate Safe(y: State) {
    && Shaped(y) && LobbyInvariant.Inv(y.lobby)
    && Batons(y) && Endings(y)
    && Placed(y) && Accounted(y) && Dooms(y)
    && Logged(y) && GameSpeaks(y) && Openings(y) && Witnessed(y)
    && Ordered(y) && HandedOver(y)
  }

  // ---- a thread's step ----------------------------------------------------------------------------

  /** What the invariants tell the thread about to run. */
  lemma HereOf(y: State, t: Tid)
    requires Shaped(y) && Batons(y) && Endings(y) && Dooms(y) && t in y.threads && y.threads[t] != Idle
    ensures y.threads[t].s in y.sessions && Here(t, y.threads[t], y.sessions[y.threads[t].s])
  {
    assert ThreadOk(y, t) && ThreadBaton(y, t) && ThreadEnding(y, t) && ThreadDoom(y, t);
    assert SessionEnding(y, y.threads[t].s);
  }

  lemma StreamOf(y: State, t: Tid)
    requires Shaped(y) && Batons(y) && Ordered(y) && t in y.threads && HasBaton(y.threads[t])
    ensures y.threads[t].s in y.sessions && OrderHere(y.threads[t], y.sessions[y.threads[t].s])
  {
    assert ThreadOk(y, t) && ThreadBaton(y, t) && SessionOrder(y, y.threads[t].s);
  }

  /** A busy thread can always take its step: nothing is skipped that is not stored. */
  lemma BusyCanRun(y: State, t: Tid)
    requires Shaped(y) && Batons(y) && Ordered(y) && t in y.threads && y.threads[t] != Idle
    ensures CanRun(y, t)
  {
    assert ThreadOk(y, t);
    if y.threads[t].Scanning? {
      StreamOf(y, t);
    }
  }

  predicate ControlOk(t: Tid, pc: Pc, d: Sess, turn: Turn, next: OpId, logged: nat) {
    Owned(t, pc, d, turn, next) && Counts(t, pc, d, turn, next) && Tells(t, pc, d, turn, logged)
  }

  lemma ControlTurn(t: Tid, pc: Pc, d: Sess, fails: bool, next: OpId, logged: nat)
    requires Here(t, pc, d) && MayTurn(pc, d)
    ensures ControlOk(t, pc, d, TurnOf(t, pc, d, fails, next, logged), next, logged)
  {
    match pc
    case Accepting(s, at) => AcceptTurn(t, s, at, d, next, logged);
    case Posting(s, at) =>
      PostOwned(t, s, at, d, fails, next);
      PostCounts(t, s, at, d, fails, next);
      PostTells(t, s, at, d, fails, next, logged);
    case Receiving(s, at, ok) =>
      RecvOwned(t, s, at, ok, d, next);
      RecvCounts(t, s, at, ok, d, next);
      RecvTells(t, s, at, ok, d, logged);
    case Scanning(s, at) =>
      FrameOwned(t, s, at, d, next, logged);
      FrameCounts(t, s, at, d, next);
    case Sent(s, at, o, ok) => SentTurn(t, s, at, o, ok, d, next, logged);
    case Ending(s, at, ret) =>
      CloseOwned(t, s, at, ret, d, next, logged);
      CloseCounts(t, s, at, ret, d, next, logged);
      CloseEnds(t, s, at, ret, d, logged);
      CloseOpens(t, s, at, ret, d, logged);
    case Sending(s, at, ret) =>
      SendOwned(t, s, at, ret, d, fails, next, logged);
      SendCounts(t, s, at, ret, d, fails, next);
    case Destroying(s, at) =>
      DestroyOwned(t, s, at, d, next, logged);
      DestroyCounts(t, s, at, d, next);
    case Gaming(s, at) =>
      GameOwned(t, s, at, d, next, logged);
      GameCounts(t, s, at, d, next);
  }

  lemma OrderTurn(t: Tid, pc: Pc, d: Sess, fails: bool, next: OpId, logged: nat)
    requires Here(t, pc, d) && MayTurn(pc, d) && (HasBaton(pc) ==> OrderHere(pc, d))
    ensures InOrder(pc, d, TurnOf(t, pc, d, fails, next, logged))
  {
    match pc
    case Accepting(s, at) => AcceptInOrder(t, s, at, d, logged);
    case Posting(s, at) => PostInOrder(t, s, at, d, fails, next);
    case Receiving(s, at, ok) => RecvInOrder(t, s, at, ok, d);
    case Scanning(s, at) => FrameInOrder(t, s, at, d);
    case Sent(s, at, o, ok) => SentInOrder(t, s, at, o, ok, d);
    case Ending(s, at, ret) =>
      if at == CloseCas {
        if d.state == Connected {
          CloseOpenStreams(t, s, ret, d, logged);
        } else {
          CloseShutStreams(t, s, ret, d, logged);
        }
        CloseBeginsHands(t, s, ret, d, logged);
      } else if at == ClosePush {
        CloseEndsInOrder(t, s, at, ret, d, logged);
      } else {
        CloseGoesOnInOrder(t, s, at, ret, d, logged);
      }
    case Sending(s, at, ret) => SendInOrder(t, s, at, ret, d, fails, next);
    case Destroying(s, at) => DestroyInOrder(t, s, at, d);
    case Gaming(s, at) => GameInOrder(t, s, at, d);
  }

  /** The turn of thread t, with all that is known of it. */
  ghost predicate Turns(y: State, t: Tid, s: Sid, turn: Turn) {
    && t in y.threads && y.threads[t] != Idle && y.threads[t].s == s && s in y.sessions
    && ControlOk(t, y.threads[t], y.sessions[s], turn, y.nextOp, |y.log|)
    && InOrder(y.threads[t], y.sessions[s], turn)
  }

  lemma TurnsOf(y: State, t: Tid, fails: bool)
    requires Safe(y) && CanRun(y, t)
    ensures Turns(y, t, y.threads[t].s, TurnAt(y, t, fails))
  {
    HereOf(y, t);
    var pc := y.threads[t];
    ControlTurn(t, pc, y.sessions[pc.s], fails, y.nextOp, |y.log|);
    if HasBaton(pc) {
      StreamOf(y, t);
    }
    OrderTurn(t, pc, y.sessions[pc.s], fails, y.nextOp, |y.log|);
  }

  /** Ids in use are in one place, so a start collides with nothing. */
  lemma StartsAreFresh(y: State, t: Tid, s: Sid, turn: Turn)
    requires Placed(y) && Turns(y, t, s, turn)
    ensures y.nextOp !in y.kernel && y.nextOp !in y.queue
    ensures turn.touch.StartSend? ==> turn.touch.o !in y.kernel
  {
    NextIsFresh(y);
    if turn.touch.StartSend? {
      HeldIsNowhereElse(y, t);
    }
  }

  /** When the game side is over, only workers still count on the session. */
  lemma OnlyWorkersRefer(y: State, s: Sid, u: Tid)
    requires Shaped(y) && Endings(y) && Logged(y) && GameSpeaks(y) && Openings(y)
    requires s in y.sessions && y.sessions[s].gameCleanupDone && u in y.threads && !u.Worker?
    ensures !RefersTo(y.threads[u], s)
  {
    assert ThreadOk(y, u) && SessionEnding(y, s) && SessionLogged(y, s);
    match u
    case Acceptor =>
    case GameThread =>
  }

  /** Where the game thread goes next is an announced session. */
  lemma NextIsAnnounced(y: State, t: Tid, s: Sid, turn: Turn)
    requires Shaped(y) && Logged(y) && GameSpeaks(y) && Turns(y, t, s, turn) && turn.pc != Idle
    ensures turn.pc.s in y.sessions && (turn.pc.s == s || (!Unannounced(turn.pc) && y.sessions[turn.pc.s].connectAt >= 0))
  {
    assert ThreadOk(y, t);
    if turn.pc.s != s {
      assert t == GameThread;
      assert SessionLogged(y, turn.pc.s);
    }
  }

  lemma RunKeepsControl(y: State, t: Tid, s: Sid, turn: Turn)
    requires Safe(y) && Turns(y, t, s, turn)
    ensures var y1 := Apply(y, t, s, turn);
            Shaped(y1) && Batons(y1) && Endings(y1) && Placed(y1) && Accounted(y1) && Dooms(y1)
  {
    StartsAreFresh(y, t, s, turn);
    ShapedKept(y, t, turn);
    BatonsKept(y, t, s, turn);
    EndingsKept(y, t, s, turn);
    PlacedKept(y, t, s, turn);
    AccountedKept(y, t, s, turn);
    assert SessionEnding(y, s) && ThreadOk(y, t);
    DoomsKept(y, t, s, turn);
  }

  lemma RunKeepsHistory(y: State, t: Tid, s: Sid, turn: Turn)
    requires Safe(y) && Turns(y, t, s, turn)
    ensures var y1 := Apply(y, t, s, turn);
            Logged(y1) && GameSpeaks(y1) && Openings(y1) && Witnessed(y1) && Ordered(y1) && HandedOver(y1)
  {
    StartsAreFresh(y, t, s, turn);
    assert ThreadEnding(y, t) && ThreadOk(y, t);
    if turn.pc != Idle {
      NextIsAnnounced(y, t, s, turn);
    }
    LoggedKept(y, t, s, turn);
    SpeaksKept(y, t, s, turn);
    OpeningsKept(y, t, s, turn);
    if y.sessions[s].gameCleanupDone {
      forall u | u in y.threads && !u.Worker?
        ensures !RefersTo(y.threads[u], s)
      {
        OnlyWorkersRefer(y, s, u);
      }
    }
    WitnessedKept(y, t, s, turn);
    OrderedKept(y, t, s, turn);
    HandedKept(y, t, s, turn);
  }

  lemma RunKeepsSafe(y: State, t: Tid, fails: bool)
    requires Safe(y) && CanRun(y, t)
    ensures Safe(RunStep(y, t, fails))
  {
    TurnsOf(y, t, fails);
    RunKeepsControl(y, t, y.threads[t].s, TurnAt(y, t, fails));
    RunKeepsHistory(y, t, y.threads[t].s, TurnAt(y, t, fails));
  }

  // ---- the steps that start a thread, and the kernel's --------------------------------------------

  lemma AcceptKeepsControl(y: State, s: Sid)
    requires Safe(y) && y.threads[Acceptor] == Idle && s !in y.sessions
    ensures var y1 := AcceptNew(y, s);
            Shaped(y1) && Batons(y1) && Endings(y1) && Placed(y1) && Accounted(y1) && Dooms(y1)
  {
    var y1 := AcceptNew(y, s);
    assert forall o :: o in y.kernel ==> KernelPlaced(y, o);
    assert forall o :: o in y.queue ==> QueuePlaced(y, o);
    assert forall t :: t in y.threads ==> ThreadOk(y, t);
    MoveShaped(y, y1, Acceptor);
    AcceptBatons(y, s);
    AcceptEndings(y, s);
    ElsewherePlaced(y, y1, Acceptor);
    assert KernelOps(y.kernel, s) == {} && QueuedIo(y.queue, s) == {} && Holders(y.threads, s) == {};
    ElsewhereAccounted(y, y1, Acceptor);
    AcceptDooms(y, s);
  }

  lemma AcceptKeepsSafe(y: State, s: Sid)
    requires Safe(y) && y.threads[Acceptor] == Idle && s !in y.sessions
    ensures Safe(AcceptNew(y, s))
  {
    AcceptKeepsControl(y, s);
    assert forall o :: o in y.kernel ==> KernelPlaced(y, o);
    assert forall o :: o in y.queue ==> QueuePlaced(y, o);
    AcceptLogged(y, s);
    AcceptOpenings(y, s);
    AcceptWitnessed(y, s);
    AcceptOrdered(y, s);
    AcceptHanded(y, s);
  }

  lemma CompleteKeepsSafe(y: State, o: OpId, ok: bool, data: seq<byte>)
    requires Safe(y) && o in y.kernel && y.kernel[o].s in y.sessions && |data| <= BUFFER_SIZE
    ensures Safe(CompleteStep(y, o, ok, data))
  {
    var y1 := CompleteStep(y, o, ok, data);
    var s := y.kernel[o].s;
    assert KernelPlaced(y, o) && ThreadOk(y, GameThread);
    MoveShaped(y, y1, GameThread);
    CompleteBatons(y, o, ok, data);
    SameEndings(y, y1, s);
    CompletePlaced(y, o, ok, data);
    CompleteAccounted(y, o, ok, data);
    CompleteDooms(y, o, ok, data);
    ElsewhereLogged(y, y1, GameThread, s);
    CompleteOpenings(y, o, ok, data);
    CompleteWitnessed(y, o, ok, data);
    CompleteOrdered(y, o, ok, data);
    CompleteHanded(y, o, ok, data);
  }

  lemma TakeKeepsSafe(y: State, n: nat, o: OpId)
    requires Safe(y) && Worker(n) in y.threads && y.threads[Worker(n)] == Idle && o in y.queue && y.queue[o].s in y.sessions
    ensures Safe(TakeStep(y, n, o))
  {
    var y1 := TakeStep(y, n, o);
    var s := y.queue[o].s;
    TakeIsAnnounced(y, o);
    MoveShaped(y, y1, Worker(n));
    TakeBatons(y, n, o);
    ElsewhereEndings(y, y1, Worker(n), s);
    TakePlaced(y, n, o);
    TakeAccounted(y, n, o);
    TakeDooms(y, n, o);
    ElsewhereLogged(y, y1, Worker(n), s);
    TakeOpenings(y, n, o);
    TakeWitnessed(y, n, o);
    TakeOrdered(y, n, o);
    TakeHanded(y, n, o);
  }

  lemma TakeIsAnnounced(y: State, o: OpId)
    requires Openings(y) && Logged(y) && o in y.queue && y.queue[o].s in y.sessions
    ensures y.sessions[y.queue[o].s].connectAt >= 0
  {
    assert SessionLogged(y, y.queue[o].s);
  }

  /** The job popped next: a Disconnect is one queued and not yet processed. */
  lemma NextJob(y: State)
    requires Shaped(y) && Logged(y) && y.done < |y.log|
    ensures var job := y.log[y.done];
            && job.s in y.sessions && y.sessions[job.s].connectAt >= 0
            && (job.Disconnect? ==> y.sessions[job.s].ending == JobQueued)
  {
    var s := y.log[y.done].s;
    assert JobLogged(y, y.done) && SessionLogged(y, s);
  }

  /** What the job's handler does, as the invariants need it. */
  ghost predicate Handled(l: Lobby, job: Job, l1: Lobby, fx: seq<Effect>) {
    && LobbyInvariant.Inv(l1)
    && LobbyFollows(l.players.Keys, l1.players.Keys, job)
    && (forall i :: 0 <= i < |fx| ==> fx[i].to in l1.players)
    && (forall s :: SparesOutsider(l, job, l1, fx, s))
  }

  lemma HandledOf(l: Lobby, job: Job, env: Env)
    requires LobbyInvariant.Inv(l) && PickOk(l, env) && Step(l, job, env).Done?
    ensures Handled(l, job, Step(l, job, env).lobby, Step(l, job, env).effects)
  {
    LobbyInvariant.StepKeepsInv(l, job, env);
    LobbyTheorems.StepIsAddressed(l, job, env);
    LobbyTheorems.WhoComesAndGoes(l, job, env);
    forall s
      ensures SparesOutsider(l, job, Step(l, job, env).lobby, Step(l, job, env).effects, s)
    {
      if s != job.s {
        LobbyTheorems.OthersKeepTheirSeats(l, job, env, s);
      }
    }
  }

  lemma PlayersStaySessions(y: State, l1: Lobby, job: Job)
    requires Shaped(y) && job.s in y.sessions && LobbyFollows(y.lobby.players.Keys, l1.players.Keys, job)
    ensures forall s :: s in l1.players ==> s in y.sessions
  {
    assert forall s :: s in l1.players ==> s in l1.players.Keys;
    assert forall s :: s in y.lobby.players.Keys ==> s in y.lobby.players;
  }

  lemma PopKeepsOwners(y: State, l1: Lobby, fx: seq<Effect>)
    requires Safe(y) && y.threads[GameThread] == Idle && y.done < |y.log| && y.log[y.done].s in y.sessions
    ensures var y1 := Popped(y, l1, fx); Batons(y1) && Endings(y1)
  {
    var y1 := Popped(y, l1, fx);
    var s := y.log[y.done].s;
    NextJob(y);
    PopBatons(y, y1, s);
    if y.log[y.done].Disconnect? {
      PopDisconnectEndings(y, y1, s);
    } else {
      ElsewhereEndings(y, y1, GameThread, s);
    }
  }

  lemma PopKeepsPlaces(y: State, l1: Lobby, fx: seq<Effect>)
    requires Safe(y) && y.threads[GameThread] == Idle && y.done < |y.log| && y.log[y.done].s in y.sessions
    requires Handled(y.lobby, y.log[y.done], l1, fx)
    ensures var y1 := Popped(y, l1, fx); Shaped(y1) && Placed(y1) && Accounted(y1) && Dooms(y1)
  {
    var y1 := Popped(y, l1, fx);
    PlayersStaySessions(y, l1, y.log[y.done]);
    MoveShaped(y, y1, GameThread);
    ElsewherePlaced(y, y1, GameThread);
    ElsewhereAccounted(y, y1, GameThread);
    PopDooms(y, y1, y.log[y.done].s);
  }

  lemma PopKeepsHistory(y: State, l1: Lobby, fx: seq<Effect>)
    requires Safe(y) && y.threads[GameThread] == Idle && y.done < |y.log| && Handled(y.lobby, y.log[y.done], l1, fx)
    requires y.log[y.done].s in y.sessions
    ensures var y1 := Popped(y, l1, fx);
            Logged(y1) && GameSpeaks(y1) && Openings(y1) && Witnessed(y1) && Ordered(y1) && HandedOver(y1)
  {
    var y1 := Popped(y, l1, fx);
    var job := y.log[y.done];
    NextJob(y);
    PopLogged(y, y1, job);
    PopOpenings(y, y1, job, fx);
    PopWitnessed(y, y1, job.s);
    PopOrdered(y, y1, job.s);
  }

  lemma PopKeepsSafe(y: State, env: Env)
    requires Safe(y) && y.threads[GameThread] == Idle && y.done < |y.log| && y.log[y.done].s in y.sessions
    requires PickOk(y.lobby, env) && Step(y.lobby, y.log[y.done], env).Done?
    ensures Safe(PopStep(y, env))
  {
    var o := Step(y.lobby, y.log[y.done], env);
    HandledOf(y.lobby, y.log[y.done], env);
    PopKeepsOwners(y, o.lobby, o.effects);
    PopKeepsPlaces(y, o.lobby, o.effects);
    PopKeepsHistory(y, o.lobby, o.effects);
  }

  // ---- every step ---------------------------------------------------------------------------------

  lemma InitIsSafe(y: State)
    requires Init(y)
    ensures Safe(y)
  {
    LobbyInvariant.InitialInv();
    assert forall t :: ThreadOk(y, t) && ThreadBaton(y, t) && ThreadEnding(y, t) && ThreadPlaced(y, t) && ThreadDoom(y, t) && ThreadLogged(y, t);
  }

  /** The invariant of the server: every enabled step of any thread or of the kernel keeps it. */
  lemma NextKeepsSafe(y: State, a: Action)
    requires Safe(y) && Enabled(y, a)
    ensures Safe(Next(y, a))
  {
    match a
    case Accept(s) => AcceptKeepsSafe(y, s);
    case Run(t, fails) => RunKeepsSafe(y, t, fails);
    case Complete(o, ok, data) => CompleteKeepsSafe(y, o, ok, data);
    case Take(n, o) => TakeKeepsSafe(y, n, o);
    case Pop(env) => PopKeepsSafe(y, env);
  }
}
