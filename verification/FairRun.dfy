/**
 A fair run that never ends and in which sessions close: clients connect, send nothing and hang up. The
 theorems about fair runs speak of something.
 */
module FairRun {
  import opened Bytes
  import opened Framing
  import opened Protocol
  import opened Lobby
  import opened LobbyTheorems
  import opened Session
  import opened Server
  import opened ServerShape
  import opened ServerBaton
  import opened ServerEnding
  import opened ServerContexts
  import opened ServerOrder
  import opened ServerTurns
  import opened ServerSafe
  import opened ServerTheorems
  import opened ServerDrain
  import opened ServerFair
  import opened ServerServes
  import opened ServerReasons
  import opened ServerCloses
  import opened EndToEnd
  import LobbyInvariant

  /** Before the first step, with one worker. */
  const START := State(map[], map[Acceptor := Idle, GameThread := Idle, Worker(0) := Idle], map[], map[], [], 0, INITIAL, 0, map[], multiset{})

  /** A receive that a client can end by hanging up. */
  ghost predicate MayHangUp(y: State, o: OpId) {
    o in y.kernel && y.kernel[o].isRecv && y.kernel[o].s in y.sessions && y.sessions[y.kernel[o].s].socketOpen
  }

  lemma FreshSession(sessions: map<Sid, Sess>) returns (s: Sid)
    ensures s !in sessions
  {
    s := Above(sessions.Keys);
    assert s !in sessions.Keys;
  }

  lemma Above(keys: set<Sid>) returns (n: Sid)
    ensures forall k :: k in keys ==> k < n
    decreases |keys|
  {
    if keys == {} {
      n := 0;
    } else {
      var k :| k in keys;
      var m := Above(keys - {k});
      n := if k < m then m else k + 1;
      assert forall j :: j in keys ==> j == k || j in keys - {k};
    }
  }

  ghost predicate MayDo(y: State, a: Action) {
    Enabled(y, a) && (a.Complete? && y.kernel[a.o].isRecv ==> a.data == [])
  }

  lemma RestMayGoOn(y: State)
    requires Safe(y) && AtRest(y)
    ensures forall o :: MayHangUp(y, o) ==> Enabled(y, Complete(o, false, []))
    ensures exists s :: Enabled(y, Accept(s))
  {
    forall o | MayHangUp(y, o)
      ensures Enabled(y, Complete(o, false, []))
    {
      OperationMayComplete(y, o);
    }
    if y.threads[Acceptor] != Idle {
      BusyMayStep(y, Acceptor);
    }
    var s := FreshSession(y.sessions);
    assert Enabled(y, Accept(s));
  }

  /** First whatever is left to do; then a client hangs up; then the next one connects. */
  ghost predicate IsPicked(y: State, a: Action) {
    && MayDo(y, a) && (!IsInternal(y, a) ==> AtRest(y))
    && (AtRest(y) ==> if exists o :: MayHangUp(y, o) then a.Complete? && !a.ok && MayHangUp(y, a.o) else a.Accept?)
  }

  ghost function Pick(y: State): (a: Action)
    requires Safe(y)
    ensures IsPicked(y, a)
  {
    if b :| Enabled(y, b) && IsInternal(y, b) then b
    else
      RestMayGoOn(y);
      if o :| MayHangUp(y, o) then Complete(o, false, [])
      else var s :| Enabled(y, Accept(s)); Accept(s)
  }

  ghost function At(n: nat): (y: State)
    ensures Safe(y)
  {
    if n == 0 then
      InitIsSafe(START);
      START
    else
      var y := At(n - 1);
      NextKeepsSafe(y, Pick(y));
      Next(y, Pick(y))
  }

  /** Such a run: from the start, every action one that Pick may have chosen. */
  ghost predicate IsIdleRun(ys: nat -> State, actions: nat -> Action) {
    && IsEndless(ys, actions) && Init(ys(0)) && Worker(0) in ys(0).threads
    && (forall n: nat :: IsPicked(ys(n), actions(n)))
  }

  ghost predicate Follows(y: State, a: Action, y1: State) {
    Enabled(y, a) && y1 == Next(y, a) && IsPicked(y, a)
  }

  lemma AtNext(n: nat)
    ensures Follows(At(n), Pick(At(n)), At(n + 1))
  {
    assert At(n + 1) == Next(At(n), Pick(At(n)));
  }

  lemma FollowingIsIdle(ys: nat -> State, actions: nat -> Action)
    requires ys(0) == START && forall n: nat :: Follows(ys(n), actions(n), ys(n + 1))
    ensures IsIdleRun(ys, actions)
  {
    forall n: nat
      ensures Enabled(ys(n), actions(n)) && ys(n + 1) == Next(ys(n), actions(n)) && IsPicked(ys(n), actions(n))
    {
      assert Follows(ys(n), actions(n), ys(n + 1));
    }
  }

  lemma IdleRunExists() returns (ys: nat -> State, actions: nat -> Action)
    ensures IsIdleRun(ys, actions)
  {
    ys, actions := (n: nat) => At(n), (n: nat) => Pick(At(n));
    PickedFollow(ys, actions);
    FollowingIsIdle(ys, actions);
  }

  lemma PickedFollow(ys: nat -> State, actions: nat -> Action)
    requires forall n: nat :: ys(n) == At(n) && actions(n) == Pick(At(n))
    ensures forall n: nat :: Follows(ys(n), actions(n), ys(n + 1))
  {
    forall n: nat ensures Follows(ys(n), actions(n), ys(n + 1)) { AtNext(n); }
  }

  // ---- no byte comes in, so no job dangles --------------------------------------------------------

  lemma NoMoreBytes(y: State, a: Action, s: Sid)
    requires Safe(y) && MayDo(y, a)
    ensures WireOf(Next(y, a), s) == WireOf(y, s)
  {
    StepArrives(y, a, s);
    assert Arrives(y, a, s) == [];
  }

  lemma {:induction false} SameWire(ys: nat -> State, n: nat, s: Sid)
    requires forall k: nat :: WireOf(ys(k + 1), s) == WireOf(ys(k), s)
    ensures WireOf(ys(n), s) == WireOf(ys(0), s)
  {
    if n > 0 {
      SameWire(ys, n - 1, s);
      assert WireOf(ys(n - 1 + 1), s) == WireOf(ys(n - 1), s);
    }
  }

  lemma NoByteComes(ys: nat -> State, actions: nat -> Action, n: nat, s: Sid)
    requires IsIdleRun(ys, actions)
    ensures WireOf(ys(n), s) == []
  {
    InitIsSafe(ys(0));
    forall k: nat
      ensures WireOf(ys(k + 1), s) == WireOf(ys(k), s)
    {
      OneStepBringsNothing(ys, actions, k, s);
    }
    SameWire(ys, n, s);
  }

  lemma OneStepBringsNothing(ys: nat -> State, actions: nat -> Action, k: nat, s: Sid)
    requires IsIdleRun(ys, actions)
    ensures WireOf(ys(k + 1), s) == WireOf(ys(k), s)
  {
    IdleRunIsSafe(ys, actions, k);
    NoMoreBytes(ys(k), actions(k), s);
  }

  lemma IdleRunIsSafe(ys: nat -> State, actions: nat -> Action, n: nat)
    requires IsIdleRun(ys, actions)
    ensures Safe(ys(n)) && IsPicked(ys(n), actions(n)) && Enabled(ys(n), actions(n)) && ys(n + 1) == Next(ys(n), actions(n))
  {
    InitIsSafe(ys(0));
    EndlessIsSafe(ys, actions, n);
  }

  lemma TakenHasBytes(d: Sess, mid: seq<Packet>)
    requires Stream(d, mid) && d.taken != [] && d.fed <= d.wire
    ensures d.wire != []
  {
    assert PrintAll(d.taken) == Print(d.taken[0]) + PrintAll(d.taken[1..]);
  }

  lemma PacketHasBytes(y: State, i: nat)
    requires Safe(y) && i < |y.log| && y.log[i].Deliver?
    ensures WireOf(y, y.log[i].s) != []
  {
    var s := y.log[i].s;
    StreamAt(y, s);
    HandedHas(y.log, i);
    SubsequenceHas(Handed(y.log, s), DecidedIn(y, y.sessions[s]), y.log[i].packet);
    TakenHasBytes(y.sessions[s], MidPacket(Holder(y, y.sessions[s])));
  }

  lemma NoPacketIsNext(ys: nat -> State, actions: nat -> Action, n: nat)
    requires IsIdleRun(ys, actions) && GameIsFree(ys(n))
    ensures !NextJobOf(ys(n)).Deliver?
  {
    IdleRunIsSafe(ys, actions, n);
    if NextJobOf(ys(n)).Deliver? {
      NoByteComes(ys, actions, n, NextJobOf(ys(n)).s);
      PacketHasBytes(ys(n), ys(n).done);
    }
  }

  lemma NothingDangles(ys: nat -> State, actions: nat -> Action, n: nat)
    requires IsIdleRun(ys, actions)
    ensures !IsBlocked(ys(n))
  {
    if GameIsFree(ys(n)) {
      NoPacketIsNext(ys, actions, n);
      var env := SomePick(ys(n).lobby);
    }
  }

  // ---- fairness -----------------------------------------------------------------------------------

  lemma RunLeavesWaiting(y: State, t: Tid, fails: bool, h: Helper)
    requires Safe(y) && CanRun(y, t) && Awaits(y, h) && h != OfThread(t)
    ensures Awaits(RunStep(y, t, fails), h)
  {
    match h
    case OfThread(_) =>
    case OfKernel(o) => KernelStillWaits(y, t, fails, o);
    case OfPort(_) => QueueGrows(y, t, fails);
    case OfGame => GameStillWaits(y, t, fails);
  }

  lemma KernelStillWaits(y: State, t: Tid, fails: bool, o: OpId)
    requires Safe(y) && CanRun(y, t) && Awaits(y, OfKernel(o))
    ensures Awaits(RunStep(y, t, fails), OfKernel(o))
  {
    TurnsOf(y, t, fails);
    StartsAreFresh(y, t, y.threads[t].s, TurnAt(y, t, fails));
    SocketStaysClosed(t, y.threads[t], y.sessions[y.threads[t].s], fails, y.nextOp, |y.log|);
  }

  lemma GameStillWaits(y: State, t: Tid, fails: bool)
    requires Safe(y) && CanRun(y, t) && Awaits(y, OfGame)
    ensures Awaits(RunStep(y, t, fails), OfGame)
  {
    StillFree(y, RunStep(y, t, fails));
  }

  lemma StillFree(y: State, y1: State)
    requires GameIsFree(y) && !IsBlocked(y) && PcOf(y1, GameThread) == Idle && GameThread in y1.threads
    requires y.log <= y1.log && y1.done == y.done && y1.lobby == y.lobby
    ensures GameIsFree(y1) && !IsBlocked(y1)
  {
    assert NextJobOf(y1) == NextJobOf(y);
    var env :| PickOk(y.lobby, env) && !Step(y.lobby, NextJobOf(y), env).Dangling?;
    assert PickOk(y1.lobby, env);
  }

  lemma StepLeavesWaiting(y: State, a: Action, h: Helper)
    requires Safe(y) && Enabled(y, a) && Awaits(y, h) && !IsBy(a, h)
    ensures Awaits(Next(y, a), h)
  {
    match a
    case Run(t, fails) => RunLeavesWaiting(y, t, fails, h);
    case Accept(_) => if h.OfGame? { StillFree(y, Next(y, a)); }
    case Complete(_, _, _) => if h.OfGame? { StillFree(y, Next(y, a)); }
    case Take(_, _) => if h.OfGame? { StillFree(y, Next(y, a)); }
    case Pop(_) =>
  }

  lemma {:induction false} WorkerStays(ys: nat -> State, actions: nat -> Action, n: nat)
    requires IsEndless(ys, actions) && Worker(0) in ys(0).threads.Keys
    ensures Worker(0) in ys(n).threads.Keys
  {
    if n > 0 {
      WorkerStays(ys, actions, n - 1);
      ThreadsStay(ys(n - 1), actions(n - 1));
    }
  }

  /** Who waits until the server rests has had its turn. */
  lemma NobodyWaitsAtRest(ys: nat -> State, actions: nat -> Action, n: nat, h: Helper)
    requires IsIdleRun(ys, actions) && AtRest(ys(n))
    ensures Quiescent(ys(n)) && !Awaits(ys(n), h)
  {
    IdleRunIsSafe(ys, actions, n);
    NothingDangles(ys, actions, n);
    WorkerStays(ys, actions, n);
    RestIsQuiescent(ys(n), 0);
  }

  ghost predicate StillWaits(y: State, a: Action, y1: State, h: Helper) {
    Awaits(y, h) && !IsBy(a, h) ==> Awaits(y1, h)
  }

  lemma {:induction false} TurnComes(ys: nat -> State, actions: nat -> Action, i: nat, j: nat, h: Helper) returns (k: nat)
    requires i <= j && Awaits(ys(i), h) && !Awaits(ys(j), h)
    requires forall n: nat :: StillWaits(ys(n), actions(n), ys(n + 1), h)
    ensures k >= i && IsBy(actions(k), h)
    decreases j - i
  {
    k := i;
    if !IsBy(actions(i), h) {
      assert StillWaits(ys(i), actions(i), ys(i + 1), h);
      k := TurnComes(ys, actions, i + 1, j, h);
    }
  }

  lemma RestComes(ys: nat -> State, actions: nat -> Action, i: nat) returns (j: nat)
    requires IsIdleRun(ys, actions)
    ensures j >= i && AtRest(ys(j))
  {
    InitIsSafe(ys(0));
    j := NeverSpins(ys, actions, i);
  }

  lemma OneTurnIsKept(ys: nat -> State, actions: nat -> Action, n: nat, h: Helper)
    requires IsIdleRun(ys, actions)
    ensures StillWaits(ys(n), actions(n), ys(n + 1), h)
  {
    IdleRunIsSafe(ys, actions, n);
    if Awaits(ys(n), h) && !IsBy(actions(n), h) {
      StepLeavesWaiting(ys(n), actions(n), h);
    }
  }

  lemma HelperGetsItsTurn(ys: nat -> State, actions: nat -> Action, i: nat, h: Helper)
    requires IsIdleRun(ys, actions) && Awaits(ys(i), h)
    ensures Happens(actions, h, i)
  {
    var j := RestComes(ys, actions, i);
    NobodyWaitsAtRest(ys, actions, j, h);
    forall n: nat ensures StillWaits(ys(n), actions(n), ys(n + 1), h) { OneTurnIsKept(ys, actions, n, h); }
    var k := TurnComes(ys, actions, i, j, h);
  }

  lemma IdleRunIsFair(ys: nat -> State, actions: nat -> Action)
    requires IsIdleRun(ys, actions)
    ensures IsFair(ys, actions)
  {
    forall i: nat, h | Awaits(ys(i), h) ensures Happens(actions, h, i) { HelperGetsItsTurn(ys, actions, i, h); }
  }

  // ---- a session closes ---------------------------------------------------------------------------

  lemma PickHangsUp(y: State, a: Action)
    requires Safe(y) && IsPicked(y, a) && AtRest(y) && (exists o :: MayHangUp(y, o))
    ensures a.Complete? && a.o in y.kernel && GivesReason(y, a, y.kernel[a.o].s)
  {
  }

  /** Once a receive is with the kernel at rest, its client hangs up, and that is a reason to close the session. */
  lemma OneCloses(ys: nat -> State, actions: nat -> Action, i: nat) returns (j: nat, s: Sid)
    requires IsIdleRun(ys, actions) && AtRest(ys(i)) && (exists o :: MayHangUp(ys(i), o))
    ensures s in ys(j).sessions && ys(j).sessions[s].state != Connected
  {
    IdleRunIsSafe(ys, actions, i);
    IdleRunIsFair(ys, actions);
    PickHangsUp(ys(i), actions(i));
    s := ys(i).kernel[actions(i).o].s;
    ReasonEnds(ys(i), actions(i), s);
    j := EndsIsClosed(ys, actions, i + 1, s);
  }

  /** At rest an open session has its receive with the kernel. */
  lemma OpenMayHangUp(y: State, s: Sid)
    requires Safe(y) && Quiescent(y) && IsOpen(y, s)
    ensures exists o :: MayHangUp(y, o)
  {
    assert SessionBaton(y, s) && SessionEnding(y, s);
    assert MayHangUp(y, y.sessions[s].baton.o);
  }

  lemma FirstConnects(ys: nat -> State, actions: nat -> Action, i: nat) returns (s: Sid)
    requires IsIdleRun(ys, actions) && AtRest(ys(i)) && !exists o :: MayHangUp(ys(i), o)
    ensures s in ys(i + 1).sessions
  {
    IdleRunIsSafe(ys, actions, i);
    s := actions(i).s;
  }

  lemma SomeoneCloses(ys: nat -> State, actions: nat -> Action) returns (j: nat, s: Sid)
    requires IsIdleRun(ys, actions)
    ensures s in ys(j).sessions && ys(j).sessions[s].state != Connected
  {
    var i := RestComes(ys, actions, 0);
    if exists o :: MayHangUp(ys(i), o) {
      j, s := OneCloses(ys, actions, i);
    } else {
      s := FirstConnects(ys, actions, i);
      j := RestComes(ys, actions, i + 1);
      InitIsSafe(ys(0));
      SessionsLast(ys, actions, i + 1, j, s);
      if IsOpen(ys(j), s) {
        NobodyWaitsAtRest(ys, actions, j, OfGame);
        IdleRunIsSafe(ys, actions, j);
        OpenMayHangUp(ys(j), s);
        j, s := OneCloses(ys, actions, j);
      }
    }
  }

  /** There is a run that never ends, is fair, has modest clients only, and in which a session closes and is deleted. */
  lemma FairRunExists() returns (ys: nat -> State, actions: nat -> Action, i: nat, j: nat, s: Sid)
    ensures IsEndless(ys, actions) && Init(ys(0)) && IsFair(ys, actions) && AlwaysModest(ys)
    ensures s in ys(i).sessions && ys(i).sessions[s].state != Connected
    ensures j >= i && s in ys(j).sessions && ys(j).sessions[s].deletions == 1
  {
    ys, actions := IdleRunExists();
    IdleRunIsFair(ys, actions);
    IdleRunIsModest(ys, actions);
    i, s := SomeoneCloses(ys, actions);
    j := ModestServerDeletes(ys, actions, i, s);
  }

  lemma IdleRunIsModest(ys: nat -> State, actions: nat -> Action)
    requires IsIdleRun(ys, actions)
    ensures AlwaysModest(ys)
  {
    forall n: nat | GameIsFree(ys(n))
      ensures Modest(ys(n).lobby, NextJobOf(ys(n)))
    {
      NoPacketIsNext(ys, actions, n);
    }
  }
}
