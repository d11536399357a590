/**
 Every packet that has come in on a session that stays open is in the end worked through by the game thread,
 whatever else goes on, as long as whoever waits gets a turn.
 */
module ServerServes {
  import opened Bytes
  import opened Framing
  import opened Protocol
  import opened Lobby
  import opened Session
  import opened Server
  import opened ServerShape
  import opened ServerBaton
  import opened ServerEnding
  import opened ServerRefs
  import opened ServerContexts
  import opened ServerOrder
  import opened ServerTurns
  import opened ServerSafe
  import opened ServerTheorems
  import opened ServerDrain
  import opened ServerFair
  import opened EndToEnd

  // ---- from the socket to the job queue -----------------------------------------------------------

  ghost predicate IsOpen(y: State, s: Sid) {
    s in y.sessions && y.sessions[s].state == Connected
  }

  /** The next receive of s is with the kernel: all that has come in is handed over. */
  ghost predicate IsListening(y: State, s: Sid) {
    s in y.sessions && y.sessions[s].baton.InKernel?
  }

  /** How far the receive path is from its next receive. */
  ghost function RecvRank(y: State, s: Sid): Rank
    requires s in y.sessions
  {
    var d := y.sessions[s];
    match d.baton
    case InQueue(_) => Rank(2, 0, 0, 0)
    case InThread(t) => Rank(1, 0, Promise(d) + Bound(PcOf(y, t)), Work(PcOf(y, t)))
    case _ => Rank(0, 0, 0, 0)
  }

  ghost predicate Carries(y: State, s: Sid, h: Helper)
    requires s in y.sessions
  {
    match y.sessions[s].baton
    case InQueue(o) => h == OfPort(o)
    case InThread(t) => h == OfThread(t)
    case _ => false
  }

  /** The receive path comes nearer to its next receive; or somebody else moved and it is where it was; or the
      session is no longer open. */
  ghost predicate Carried(y: State, y1: State, s: Sid, h: Helper, a: Action)
    requires s in y.sessions
  {
    && s in y1.sessions
    && (|| !IsOpen(y1, s)
        || Below(RecvRank(y1, s), RecvRank(y, s))
        || (!IsBy(a, h) && RecvRank(y1, s) == RecvRank(y, s) && Carries(y1, s, h)))
  }

  /** Neither the stream nor its holder moves. */
  lemma PathStays(y: State, y1: State, s: Sid, h: Helper, a: Action)
    requires s in y.sessions && s in y1.sessions && Carries(y, s, h) && !IsBy(a, h)
    requires var d, d1 := y.sessions[s], y1.sessions[s];
             d1.baton == d.baton && d1.wire == d.wire && d1.fed == d.fed && d1.ring == d.ring && d1.ending == d.ending
    requires h.OfThread? ==> PcOf(y1, h.t) == PcOf(y, h.t)
    ensures Carried(y, y1, s, h, a)
  {
  }

  lemma CarrierRuns(y: State, t: Tid, fails: bool, s: Sid)
    requires Safe(y) && CanRun(y, t) && IsOpen(y, s) && y.sessions[s].baton == InThread(t)
    ensures Carried(y, RunStep(y, t, fails), s, OfThread(t), Run(t, fails))
  {
    var pc := y.threads[t];
    assert SessionBaton(y, s) && ThreadOk(y, t);
    HereOf(y, t);
    StreamOf(y, t);
    TurnShrinks(t, pc, y.sessions[s], fails, y.nextOp, |y.log|);
    TurnsOf(y, t, fails);
    NoBatonInTheGame(y, t);
    NoEffectsElsewhere(t, pc);
    NoEffectsElsewhere(t, TurnAt(y, t, fails).pc);
  }

  lemma NoBatonInTheGame(y: State, t: Tid)
    requires Shaped(y) && t in y.threads && HasBaton(y.threads[t])
    ensures t != GameThread
  {
    assert ThreadOk(y, t);
  }

  /** A thread that does not hold the receive path of s. */
  lemma OthersLeave(y: State, t: Tid, fails: bool, s: Sid)
    requires Safe(y) && CanRun(y, t) && IsOpen(y, s) && y.sessions[s].baton != InThread(t) && IsOpen(RunStep(y, t, fails), s)
    ensures var d, d1 := y.sessions[s], RunStep(y, t, fails).sessions[s];
            d1.baton == d.baton && SameStream(d, d1) && d1.ending == d.ending
  {
    assert ThreadBaton(y, t) && SessionEnding(y, s);
    TurnsOf(y, t, fails);
    RunKeepsSafe(y, t, fails);
    assert SessionEnding(RunStep(y, t, fails), s);
  }

  lemma RunCarries(y: State, t: Tid, fails: bool, s: Sid, h: Helper)
    requires Safe(y) && CanRun(y, t) && IsOpen(y, s) && Carries(y, s, h)
    ensures Carried(y, RunStep(y, t, fails), s, h, Run(t, fails))
  {
    if h == OfThread(t) {
      CarrierRuns(y, t, fails, s);
    } else if IsOpen(RunStep(y, t, fails), s) {
      OthersLeave(y, t, fails, s);
      PathStays(y, RunStep(y, t, fails), s, h, Run(t, fails));
    }
  }

  lemma CarrierIsBusy(y: State, s: Sid, t: Tid)
    requires Safe(y) && s in y.sessions && y.sessions[s].baton == InThread(t)
    ensures t in y.threads && y.threads[t] != Idle && t != GameThread
  {
    assert SessionBaton(y, s);
    NoBatonInTheGame(y, t);
  }

  lemma AcceptCarries(y: State, r: Sid, s: Sid, h: Helper)
    requires Safe(y) && Enabled(y, Accept(r)) && s in y.sessions && Carries(y, s, h)
    ensures Carried(y, AcceptNew(y, r), s, h, Accept(r))
  {
    if h.OfThread? {
      CarrierIsBusy(y, s, h.t);
    }
    PathStays(y, AcceptNew(y, r), s, h, Accept(r));
  }

  lemma CompleteCarries(y: State, o: OpId, ok: bool, data: seq<byte>, s: Sid, h: Helper)
    requires Safe(y) && Enabled(y, Complete(o, ok, data)) && s in y.sessions && Carries(y, s, h)
    ensures Carried(y, CompleteStep(y, o, ok, data), s, h, Complete(o, ok, data))
  {
    assert KernelBaton(y, o);
    PathStays(y, CompleteStep(y, o, ok, data), s, h, Complete(o, ok, data));
  }

  lemma TakeCarries(y: State, n: nat, o: OpId, s: Sid, h: Helper)
    requires Safe(y) && Enabled(y, Take(n, o)) && s in y.sessions && Carries(y, s, h)
    ensures Carried(y, TakeStep(y, n, o), s, h, Take(n, o))
  {
    assert QueueBaton(y, o) && SessionBaton(y, s);
    if h.OfThread? {
      CarrierIsBusy(y, s, h.t);
    }
    if h != OfPort(o) {
      PathStays(y, TakeStep(y, n, o), s, h, Take(n, o));
    }
  }

  lemma PopCarries(y: State, l: Lobby, fx: seq<Effect>, s: Sid, h: Helper, env: Env)
    requires Safe(y) && GameIsFree(y) && y.log[y.done].s in y.sessions && IsOpen(y, s) && Carries(y, s, h)
    ensures Carried(y, Popped(y, l, fx), s, h, Pop(env))
  {
    NextJob(y);
    assert SessionEnding(y, s);
    if h.OfThread? {
      CarrierIsBusy(y, s, h.t);
    }
    PathStays(y, Popped(y, l, fx), s, h, Pop(env));
  }

  lemma StepCarries(y: State, a: Action, s: Sid, h: Helper)
    requires Safe(y) && Enabled(y, a) && IsOpen(y, s) && Carries(y, s, h)
    ensures Carried(y, Next(y, a), s, h, a)
  {
    match a
    case Accept(r) => AcceptCarries(y, r, s, h);
    case Run(t, fails) => RunCarries(y, t, fails, s, h);
    case Complete(o, ok, data) => CompleteCarries(y, o, ok, data, s, h);
    case Take(n, o) => TakeCarries(y, n, o, s, h);
    case Pop(env) => PopCarries(y, Step(y.lobby, NextJobOf(y), env).lobby, Step(y.lobby, NextJobOf(y), env).effects, s, h, env);
  }

  lemma SomeoneCarries(y: State, s: Sid) returns (h: Helper)
    requires Safe(y) && IsOpen(y, s) && !IsListening(y, s)
    ensures Carries(y, s, h) && Awaits(y, h)
  {
    assert SessionBaton(y, s);
    match y.sessions[s].baton
    case InQueue(o) => h := OfPort(o);
    case InThread(t) =>
      CarrierIsBusy(y, s, t);
      h := OfThread(t);
  }

  lemma {:induction false} CarryFalls(ys: nat -> State, actions: nat -> Action, i: nat, j: nat, s: Sid, h: Helper) returns (k: nat)
    requires IsEndless(ys, actions) && Safe(ys(0)) && i <= j && IsBy(actions(j), h)
    requires IsOpen(ys(i), s) && Carries(ys(i), s, h)
    ensures i < k && s in ys(k).sessions && (!IsOpen(ys(k), s) || Below(RecvRank(ys(k), s), RecvRank(ys(i), s)))
    decreases j - i
  {
    k := i + 1;
    EndlessIsSafe(ys, actions, i);
    StepCarries(ys(i), actions(i), s, h);
    if IsOpen(ys(k), s) && !Below(RecvRank(ys(k), s), RecvRank(ys(i), s)) {
      k := CarryFalls(ys, actions, i + 1, j, s, h);
    }
  }

  /** An open session listens again, or is no longer open. */
  lemma {:induction false} ListensAgain(ys: nat -> State, actions: nat -> Action, i: nat, s: Sid) returns (j: nat)
    requires IsEndless(ys, actions) && Safe(ys(0)) && IsFair(ys, actions) && s in ys(i).sessions
    ensures j >= i && (!IsOpen(ys(j), s) || IsListening(ys(j), s))
    decreases RecvRank(ys(i), s).phase, RecvRank(ys(i), s).a, RecvRank(ys(i), s).b, RecvRank(ys(i), s).c
  {
    j := i;
    EndlessIsSafe(ys, actions, i);
    if IsOpen(ys(i), s) && !IsListening(ys(i), s) {
      var h := SomeoneCarries(ys(i), s);
      assert Happens(actions, h, i);
      var n: nat :| n >= i && IsBy(actions(n), h);
      j := CarryFalls(ys, actions, i, n, s, h);
      if IsOpen(ys(j), s) {
        j := ListensAgain(ys, actions, j, s);
      }
    }
  }

  // ---- from the job queue to the lobby ------------------------------------------------------------

  /** How far the game thread is from having popped n jobs. */
  ghost function PopRank(y: State, n: nat): Rank {
    var game := PcOf(y, GameThread);
    Rank(0, if n > y.done then n - y.done else 0, |EffectsOf(game)|, Work(game))
  }

  function GameHelper(y: State): Helper {
    if PcOf(y, GameThread) == Idle then OfGame else OfThread(GameThread)
  }

  ghost predicate Popping(y: State, y1: State, n: nat, a: Action) {
    || Below(PopRank(y1, n), PopRank(y, n))
    || (!IsBy(a, GameHelper(y)) && PopRank(y1, n) == PopRank(y, n) && GameHelper(y1) == GameHelper(y))
  }

  lemma StepPops(y: State, a: Action, n: nat)
    requires Safe(y) && Enabled(y, a) && y.done < n
    ensures Popping(y, Next(y, a), n, a)
  {
    if a.Run? && a.t == GameThread {
      var pc := y.threads[GameThread];
      assert ThreadOk(y, GameThread);
      GameGetsOn(pc, y.sessions[pc.s], a.fails, y.nextOp, |y.log|);
    } else if !a.Pop? {
      assert PcOf(Next(y, a), GameThread) == PcOf(y, GameThread);
    }
  }

  lemma {:induction false} PopFalls(ys: nat -> State, actions: nat -> Action, i: nat, j: nat, n: nat) returns (k: nat)
    requires IsEndless(ys, actions) && Safe(ys(0)) && i <= j && IsBy(actions(j), GameHelper(ys(i))) && ys(i).done < n
    ensures i < k && Below(PopRank(ys(k), n), PopRank(ys(i), n))
    decreases j - i
  {
    k := i + 1;
    EndlessIsSafe(ys, actions, i);
    StepPops(ys(i), actions(i), n);
    if !Below(PopRank(ys(k), n), PopRank(ys(i), n)) {
      k := PopFalls(ys, actions, i + 1, j, n);
    }
  }

  /** Histories only grow. */
  ghost predicate IsEarlier(y: State, y1: State, s: Sid) {
    y.log <= y1.log && y.done <= y1.done && WireOf(y, s) <= WireOf(y1, s)
  }

  lemma OneStepGrows(ys: nat -> State, actions: nat -> Action, k: nat, s: Sid)
    requires IsEndless(ys, actions) && Safe(ys(0))
    ensures IsEarlier(ys(k), ys(k + 1), s)
  {
    EndlessIsSafe(ys, actions, k);
    StepLog(ys(k), actions(k));
    StepArrives(ys(k), actions(k), s);
  }

  lemma {:induction false} EarlierAndEarlier(ys: nat -> State, i: nat, j: nat, s: Sid)
    requires i <= j && forall k: nat :: IsEarlier(ys(k), ys(k + 1), s)
    ensures IsEarlier(ys(i), ys(j), s)
    decreases j - i
  {
    if i < j {
      EarlierAndEarlier(ys, i, j - 1, s);
      assert IsEarlier(ys(j - 1), ys(j - 1 + 1), s);
    }
  }

  lemma HistoryGrows(ys: nat -> State, actions: nat -> Action, i: nat, j: nat, s: Sid)
    requires IsEndless(ys, actions) && Safe(ys(0)) && i <= j
    ensures IsEarlier(ys(i), ys(j), s)
  {
    forall k: nat ensures IsEarlier(ys(k), ys(k + 1), s) { OneStepGrows(ys, actions, k, s); }
    EarlierAndEarlier(ys, i, j, s);
  }

  /** The first n jobs pushed are popped in the end, unless one before them dangles. */
  lemma {:induction false} JobsArePopped(ys: nat -> State, actions: nat -> Action, i: nat, n: nat) returns (j: nat)
    requires IsEndless(ys, actions) && Safe(ys(0)) && IsFair(ys, actions) && n <= |ys(i).log|
    ensures j >= i && (ys(j).done >= n || IsBlocked(ys(j)))
    decreases PopRank(ys(i), n).a, PopRank(ys(i), n).b, PopRank(ys(i), n).c
  {
    j := i;
    EndlessIsSafe(ys, actions, i);
    if ys(i).done < n && !IsBlocked(ys(i)) {
      var h := GameHelper(ys(i));
      assert Awaits(ys(i), h);
      assert Happens(actions, h, i);
      var m: nat :| m >= i && IsBy(actions(m), h);
      var k := PopFalls(ys, actions, i, m, n);
      HistoryGrows(ys, actions, i, k, 0);
      j := JobsArePopped(ys, actions, k, n);
    }
  }

  // ---- together -----------------------------------------------------------------------------------

  lemma ParseGrows(a: seq<byte>, b: seq<byte>)
    requires a <= b
    ensures Parse(a).packets <= Parse(b).packets
  {
    ParseAppend(a, b[|a|..]);
    assert b == a + b[|a|..];
  }

  /** When a session listens, all packets that have come in have been pushed. */
  lemma ListeningIsHandedOver(y: State, s: Sid)
    requires Safe(y) && IsOpen(y, s) && IsListening(y, s)
    ensures Parse(WireOf(y, s)).packets == Handed(y.log, s)
  {
    var d := y.sessions[s];
    assert SessionOrder(y, s) && SessionHanded(y, s);
    TakenIsParse(d);
  }

  /** Liveness of the way in: the complete packets that have come in on a session are in the end all popped by the
      game thread, in order, unless the session stops being open or a job dangles before that. */
  lemma PacketsAreWorkedThrough(ys: nat -> State, actions: nat -> Action, i: nat, s: Sid) returns (j: nat)
    requires IsEndless(ys, actions) && Safe(ys(0)) && IsFair(ys, actions) && s in ys(i).sessions
    ensures j >= i && ys(j).done <= |ys(j).log|
    ensures || Parse(WireOf(ys(i), s)).packets <= Handed(ys(j).log[..ys(j).done], s)
            || !IsOpen(ys(j), s) || IsBlocked(ys(j))
  {
    j := ListensAgain(ys, actions, i, s);
    EndlessIsSafe(ys, actions, j);
    if IsOpen(ys(j), s) {
      var k := j;
      HistoryGrows(ys, actions, i, k, s);
      ParseGrows(WireOf(ys(i), s), WireOf(ys(k), s));
      ListeningIsHandedOver(ys(k), s);
      j := JobsArePopped(ys, actions, k, |ys(k).log|);
      EndlessIsSafe(ys, actions, j);
      HistoryGrows(ys, actions, k, j, s);
      if ys(j).done >= |ys(k).log| {
        PoppedCovers(ys(k).log, ys(j).log, ys(j).done, s);
      }
    }
  }

  lemma PoppedCovers(log: seq<Job>, log1: seq<Job>, done: nat, s: Sid)
    requires log <= log1 && |log| <= done <= |log1|
    ensures Handed(log, s) <= Handed(log1[..done], s)
  {
    assert log1[..done][..|log|] == log;
    PoppedInOrder(log1[..done], |log|, s);
  }

  /** With modest clients nothing dangles. */
  lemma ModestPacketsAreWorkedThrough(ys: nat -> State, actions: nat -> Action, i: nat, s: Sid) returns (j: nat)
    requires IsEndless(ys, actions) && Init(ys(0)) && IsFair(ys, actions) && AlwaysModest(ys) && s in ys(i).sessions
    ensures j >= i && ys(j).done <= |ys(j).log|
    ensures Parse(WireOf(ys(i), s)).packets <= Handed(ys(j).log[..ys(j).done], s) || !IsOpen(ys(j), s)
  {
    InitIsSafe(ys(0));
    j := PacketsAreWorkedThrough(ys, actions, i, s);
    NeverBlocked(ys, actions, j);
  }
}
