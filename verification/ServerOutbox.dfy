/**
 What the game thread has started to send to a session. Its jobs tell the session packets; a packet is lost
 when the session is no longer open as SendPacket looks, or when its send fails, and then the session closes:
 so what was started is always the first part of what was told, and all of it while the session is open.
 */
module ServerOutbox {
  import opened Bytes
  import opened Framing
  import opened Protocol
  import opened Lobby
  import opened LobbyCodec
  import opened LobbyPosted
  import opened Session
  import opened Server
  import opened ServerShape
  import opened ServerOrder
  import opened ServerLog
  import opened ServerTurns
  import opened ServerSafe
  import opened ServerTheorems
  import ServerEnding

  /** What a step of the game thread starts to send to s. */
  ghost function SendsTo(y: State, a: Action, s: Sid): seq<Packet> {
    var pc := PcOf(y, GameThread);
    if a == Run(GameThread, false) && pc.Sending? && pc.s == s && pc.send.SendCall? && s in y.sessions && y.sessions[s].socketOpen
    then [pc.send.pk] else []
  }

  /** What a pop tells s. */
  ghost function TellsTo(y: State, a: Action, s: Sid): seq<Packet> {
    if a.Pop? && y.done < |y.log| && Step(y.lobby, y.log[y.done], a.env).Done?
    then Letters(Step(y.lobby, y.log[y.done], a.env).effects, s) else []
  }

  /** What the game thread has started to send to s by the i-th state. */
  ghost function Outgoing(ys: seq<State>, actions: seq<Action>, i: nat, s: Sid): seq<Packet>
    requires i <= |actions| < |ys|
  {
    if i == 0 then [] else Outgoing(ys, actions, i - 1, s) + SendsTo(ys[i - 1], actions[i - 1], s)
  }

  /** What its jobs have told s by then, as far as it fits packets. */
  ghost function Told(ys: seq<State>, actions: seq<Action>, i: nat, s: Sid): seq<Packet>
    requires i <= |actions| < |ys|
  {
    if i == 0 then [] else Told(ys, actions, i - 1, s) + TellsTo(ys[i - 1], actions[i - 1], s)
  }

  /** The packet being sent to s and not yet started. */
  function Current(pc: Pc, s: Sid): seq<Packet> {
    if pc.Sending? && pc.s == s then
      match pc.send
      case SendGate(pk) => if pk.Valid() then [pk] else []
      case SendPost(pk) => [pk]
      case SendAdd(_, pk) => [pk]
      case SendCall(_, pk) => [pk]
      case _ => []
    else []
  }

  function InHand(pc: Pc, s: Sid): seq<Packet> {
    Current(pc, s) + Letters(EffectsOf(pc), s)
  }

  /** A send to s has failed, or the session is being closed for another reason. */
  predicate IsLosing(pc: Pc, s: Sid) {
    (pc.Sending? && pc.s == s && (pc.send.SendUndo? || pc.send.SendFree?)) || (pc.Ending? && pc.s == s)
  }

  /** Past the check of SendPacket. */
  predicate IsPastGate(pc: Pc, s: Sid) {
    pc.Sending? && pc.s == s && !pc.send.SendGate?
  }

  predicate OutboxOk(pc: Pc, open: bool, s: Sid, started: seq<Packet>, told: seq<Packet>) {
    && started <= told
    && (open && !IsLosing(pc, s) ==> started + InHand(pc, s) == told)
    && (IsPastGate(pc, s) ==> started + Current(pc, s) <= told)
  }

  ghost predicate SessionOutbox(y: State, s: Sid, started: seq<Packet>, told: seq<Packet>) {
    if s in y.sessions then OutboxOk(PcOf(y, GameThread), y.sessions[s].state == Connected, s, started, told)
    else started == [] && told == []
  }

  // ---- a step of the game thread ------------------------------------------------------------------

  function SentBy(pc: Pc, d: Sess, fails: bool, s: Sid): seq<Packet> {
    if pc.Sending? && pc.s == s && pc.send.SendCall? && !fails && d.socketOpen then [pc.send.pk] else []
  }

  /** What a step changes of what is in hand for s: nothing; the packet in hand is started; or it is lost. */
  predicate Moves(pc: Pc, pc1: Pc, open: bool, open1: bool, s: Sid, begun: seq<Packet>) {
    && EffectsOf(pc1) == EffectsOf(pc) && (open1 ==> open)
    && (|| (begun == [] && Current(pc1, s) == Current(pc, s) && (open1 && IsLosing(pc, s) ==> IsLosing(pc1, s))
            && (IsPastGate(pc1, s) ==> Current(pc1, s) == [] || IsPastGate(pc, s) || (open && !IsLosing(pc, s))))
        || (begun != [] && begun == Current(pc, s) && IsPastGate(pc, s) && Current(pc1, s) == [])
        || (begun == [] && Current(pc1, s) == [] && (!open1 || IsLosing(pc1, s))))
  }

  lemma PrefixOfSum(a: seq<Packet>, b: seq<Packet>, c: seq<Packet>, all: seq<Packet>)
    requires a + (b + c) == all
    ensures a + b <= all && a + b + c == all
  {
    PlusAssociates(a, b, c);
  }

  lemma KeptMoves(pc: Pc, pc1: Pc, open: bool, open1: bool, s: Sid, begun: seq<Packet>, started: seq<Packet>, told: seq<Packet>)
    requires OutboxOk(pc, open, s, started, told) && Moves(pc, pc1, open, open1, s, begun)
    ensures OutboxOk(pc1, open1, s, started + begun, told)
  {
    var letters := Letters(EffectsOf(pc), s);
    assert started + [] == started;
    if open && !IsLosing(pc, s) {
      PrefixOfSum(started, Current(pc, s), letters, told);
    }
    assert [] + letters == letters;
  }

  lemma SendReturns(s: Sid, ret: Ret)
    requires ret.ToGame?
    ensures var pc := Return(s, ret); Current(pc, s) == [] && !IsPastGate(pc, s) && EffectsOf(pc) == ret.fx
  {
  }

  lemma SendMoves(s: Sid, at: SendAt, ret: Ret, d: Sess, fails: bool, next: OpId)
    requires ret.ToGame?
    ensures var pc, turn := Sending(s, at, ret), SendStep(s, at, ret, d, fails, next);
            Moves(pc, turn.pc, d.state == Connected, turn.d.state == Connected, s, SentBy(pc, d, fails, s))
  {
    SendReturns(s, ret);
    match at
    case SendGate(pk) =>
    case SendPost(pk) =>
    case SendAdd(o, pk) =>
    case SendCall(o, pk) =>
    case SendUndo(o) =>
    case SendFree(o) =>
  }

  lemma CloseMoves(t: Tid, s: Sid, at: CloseAt, ret: Ret, d: Sess, logged: nat)
    requires ret.ToGame? && (at != CloseCas ==> d.state != Connected)
    ensures var pc, turn := Ending(s, at, ret), CloseStep(t, s, at, ret, d, logged);
            Moves(pc, turn.pc, d.state == Connected, turn.d.state == Connected, s, [])
  {
    SendReturns(s, ret);
    match at
    case CloseCas =>
    case CloseIssue =>
    case CloseSocket =>
    case CloseStore =>
    case ClosePush =>
  }

  /** Elsewhere nothing in hand for s moves. */
  lemma AwayMoves(pc: Pc, d: Sess, fails: bool, next: OpId, logged: nat, s: Sid, open: bool)
    requires pc != Idle && Shape(GameThread, pc) && !pc.Gaming? && pc.s != s && MayTurn(pc, d)
    ensures Moves(pc, TurnOf(GameThread, pc, d, fails, next, logged).pc, open, open, s, [])
  {
  }

  /** The next effect is taken up. */
  lemma EffectKeeps(pc: Pc, d: Sess, s: Sid, open: bool, started: seq<Packet>, told: seq<Packet>)
    requires pc.Gaming? && OutboxOk(pc, open, s, started, told)
    ensures OutboxOk(GameStep(pc.s, pc.game, d).pc, open, s, started, told) && GameStep(pc.s, pc.game, d).d.state == d.state
  {
    var pc1 := GameStep(pc.s, pc.game, d).pc;
    assert Current(pc, s) == [] && [] + Letters(EffectsOf(pc), s) == Letters(EffectsOf(pc), s);
    if pc.game.GameRun? && pc.game.fx != [] {
      var fx := pc.game.fx;
      LettersCons(fx[0], fx[1..], s);
      assert [fx[0]] + fx[1..] == fx;
    }
  }

  lemma GameKeeps(y: State, fails: bool, s: Sid, started: seq<Packet>, told: seq<Packet>)
    requires Safe(y) && CanRun(y, GameThread) && s in y.sessions && SessionOutbox(y, s, started, told)
    ensures SessionOutbox(RunStep(y, GameThread, fails), s, started + SendsTo(y, Run(GameThread, fails), s), told)
  {
    var pc := y.threads[GameThread];
    var d, turn := y.sessions[pc.s], TurnAt(y, GameThread, fails);
    var open, open1 := y.sessions[s].state == Connected, RunStep(y, GameThread, fails).sessions[s].state == Connected;
    assert ThreadOk(y, GameThread) && ServerEnding.ThreadEnding(y, GameThread);
    assert started + [] == started;
    if pc.Gaming? {
      EffectKeeps(pc, d, s, open, started, told);
    } else if pc.s != s {
      AwayMoves(pc, d, fails, y.nextOp, |y.log|, s, open);
      KeptMoves(pc, turn.pc, open, open1, s, [], started, told);
    } else if pc.Sending? {
      SendMoves(s, pc.send, pc.ret, d, fails, y.nextOp);
      KeptMoves(pc, turn.pc, open, open1, s, SentBy(pc, d, fails, s), started, told);
    } else {
      CloseMoves(GameThread, s, pc.close, pc.ret, d, |y.log|);
      KeptMoves(pc, turn.pc, open, open1, s, [], started, told);
    }
  }

  // ---- the other steps ----------------------------------------------------------------------------

  /** The game thread stays where it is, and no session opens again. */
  lemma StaysKept(y: State, y1: State, s: Sid, started: seq<Packet>, told: seq<Packet>)
    requires SessionOutbox(y, s, started, told) && PcOf(y1, GameThread) == PcOf(y, GameThread)
    requires s in y1.sessions <==> s in y.sessions
    requires s in y.sessions && y1.sessions[s].state == Connected ==> y.sessions[s].state == Connected
    ensures SessionOutbox(y1, s, started + [], told + [])
  {
    assert started + [] == started && told + [] == told;
  }

  lemma OthersKeep(y: State, t: Tid, fails: bool, s: Sid, started: seq<Packet>, told: seq<Packet>)
    requires Safe(y) && CanRun(y, t) && t != GameThread && SessionOutbox(y, s, started, told)
    ensures SessionOutbox(RunStep(y, t, fails), s, started + [], told + [])
  {
    TurnsOf(y, t, fails);
    StaysKept(y, RunStep(y, t, fails), s, started, told);
  }

  lemma NothingInHand(y: State, s: Sid)
    requires Safe(y) && s !in y.sessions
    ensures InHand(PcOf(y, GameThread), s) == [] && !IsPastGate(PcOf(y, GameThread), s)
  {
    assert ThreadOk(y, GameThread);
    LettersToNobody(EffectsOf(y.threads[GameThread]), s);
  }

  lemma AcceptKeeps(y: State, r: Sid, s: Sid, started: seq<Packet>, told: seq<Packet>)
    requires Safe(y) && Enabled(y, Accept(r)) && SessionOutbox(y, s, started, told)
    ensures SessionOutbox(AcceptNew(y, r), s, started + [], told + [])
  {
    if r == s {
      NothingInHand(y, s);
      assert started + [] == [] && told + [] == [];
    } else {
      StaysKept(y, AcceptNew(y, r), s, started, told);
    }
  }

  lemma PopTellsSessions(y: State, env: Env, s: Sid)
    requires Safe(y) && Enabled(y, Pop(env)) && s !in y.sessions
    ensures TellsTo(y, Pop(env), s) == []
  {
    var o := Step(y.lobby, y.log[y.done], env);
    HandledOf(y.lobby, y.log[y.done], env);
    PlayersStaySessions(y, o.lobby, y.log[y.done]);
    LettersToNobody(o.effects, s);
  }

  lemma PopKeeps(y: State, env: Env, s: Sid, started: seq<Packet>, told: seq<Packet>)
    requires Safe(y) && Enabled(y, Pop(env)) && SessionOutbox(y, s, started, told)
    ensures SessionOutbox(PopStep(y, env), s, started + [], told + TellsTo(y, Pop(env), s))
  {
    if s in y.sessions {
      PopFills(Step(y.lobby, y.log[y.done], env).effects, y.log[y.done], y.sessions[s].state == Connected, s, started, told);
    } else {
      PopTellsSessions(y, env, s);
      assert started + [] == started && told + [] == told;
    }
  }

  /** The effects of the job are in hand. */
  lemma PopFills(fx: seq<Effect>, job: Job, open: bool, s: Sid, started: seq<Packet>, told: seq<Packet>)
    requires OutboxOk(Idle, open, s, started, told)
    ensures OutboxOk(Gaming(job.s, GameRun(fx, job.Disconnect?)), open, s, started + [], told + Letters(fx, s))
  {
    var pc, more := Gaming(job.s, GameRun(fx, job.Disconnect?)), Letters(fx, s);
    assert InHand(Idle, s) == [] && started + [] == started;
    assert InHand(pc, s) == [] + more == more;
  }

  lemma CompleteKeeps(y: State, o: OpId, ok: bool, data: seq<byte>, s: Sid, started: seq<Packet>, told: seq<Packet>)
    requires Enabled(y, Complete(o, ok, data)) && SessionOutbox(y, s, started, told)
    ensures SessionOutbox(CompleteStep(y, o, ok, data), s, started + [], told + [])
  {
    StaysKept(y, CompleteStep(y, o, ok, data), s, started, told);
  }

  lemma TakeKeeps(y: State, n: nat, o: OpId, s: Sid, started: seq<Packet>, told: seq<Packet>)
    requires Enabled(y, Take(n, o)) && SessionOutbox(y, s, started, told)
    requires GameThread in y.threads
    ensures SessionOutbox(TakeStep(y, n, o), s, started + [], told + [])
  {
    StaysKept(y, TakeStep(y, n, o), s, started, told);
  }

  lemma StepKeepsOutbox(y: State, a: Action, s: Sid, started: seq<Packet>, told: seq<Packet>)
    requires Safe(y) && Enabled(y, a) && SessionOutbox(y, s, started, told)
    ensures SessionOutbox(Next(y, a), s, started + SendsTo(y, a, s), told + TellsTo(y, a, s))
  {
    match a
    case Accept(r) => AcceptKeeps(y, r, s, started, told);
    case Run(t, fails) =>
      if t == GameThread && s in y.sessions {
        GameKeeps(y, fails, s, started, told);
        assert told + [] == told;
      } else if t != GameThread {
        OthersKeep(y, t, fails, s, started, told);
      }
    case Complete(o, ok, data) => CompleteKeeps(y, o, ok, data, s, started, told);
    case Take(n, o) => TakeKeeps(y, n, o, s, started, told);
    case Pop(env) => PopKeeps(y, env, s, started, told);
  }

  lemma {:induction false} OutboxIsKept(ys: seq<State>, actions: seq<Action>, i: nat, s: Sid)
    requires IsRun(ys, actions) && i < |ys|
    ensures SessionOutbox(ys[i], s, Outgoing(ys, actions, i, s), Told(ys, actions, i, s))
  {
    if i > 0 {
      OutboxIsKept(ys, actions, i - 1, s);
      OneStepOn(ys, actions, i - 1, s);
    }
  }

  lemma OneStepOn(ys: seq<State>, actions: seq<Action>, k: nat, s: Sid)
    requires IsRun(ys, actions) && k < |actions| && SessionOutbox(ys[k], s, Outgoing(ys, actions, k, s), Told(ys, actions, k, s))
    ensures SessionOutbox(ys[k + 1], s, Outgoing(ys, actions, k + 1, s), Told(ys, actions, k + 1, s))
  {
    RunIsSafe(ys, actions, k);
    StepKeepsOutbox(ys[k], actions[k], s, Outgoing(ys, actions, k, s), Told(ys, actions, k, s));
  }

  /** In every state of every run, what the game thread has started to send to a session is the first part of what
      its jobs told the session, as far as that fits packets. While the session is open, and no send to it has
      failed that is about to close it, only what the game thread has still in hand is missing: what the state
      check of SendPacket and a failed PostSend lose, they lose on sessions that close. */
  lemma OnlyClosedSessionsLose(ys: seq<State>, actions: seq<Action>, i: nat, s: Sid)
    requires IsRun(ys, actions) && i < |ys| && s in ys[i].sessions
    ensures var game, started, told := PcOf(ys[i], GameThread), Outgoing(ys, actions, i, s), Told(ys, actions, i, s);
            && started <= told
            && (ys[i].sessions[s].state == Connected && !IsLosing(game, s) ==> started + InHand(game, s) == told)
  {
    OutboxIsKept(ys, actions, i, s);
  }
}
