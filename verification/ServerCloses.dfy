/** What there is a reason to close is closed in the end, and deleted, as long as whoever waits gets a turn. */
module ServerCloses {
  import opened Bytes
  import opened Framing
  import opened Protocol
  import opened Lobby
  import opened Session
  import opened Server
  import opened ServerShape
  import opened ServerEnding
  import opened ServerTurns
  import opened ServerSafe
  import opened ServerTheorems
  import opened ServerDrain
  import opened ServerFair
  import opened EndToEnd
  import opened ServerServes
  import opened ServerDuty
  import opened ServerReasons

  // ---- a thread that is bound to ------------------------------------------------------------------

  lemma RecvGetsOn(s: Sid, at: RecvAt, ok: bool, d: Sess)
    requires at in {RecvFlag, RecvDrop, RecvCheck} && (!ok || d.buffer == [])
    ensures Lighter(RecvStep(s, at, ok, d).pc, Receiving(s, at, ok))
  {
    match at
    case RecvFlag =>
    case RecvDrop =>
    case RecvCheck =>
  }

  lemma PostGetsOn(t: Tid, s: Sid, at: PostRecvAt, d: Sess, fails: bool, next: OpId)
    requires at in {PostUndoFlag, PostUndoAdd}
    ensures Lighter(PostStep(t, s, at, d, fails, next).pc, Posting(s, at))
  {
    match at
    case PostUndoFlag =>
    case PostUndoAdd =>
  }

  lemma SentGetsOn(s: Sid, at: SentAt, o: OpId, d: Sess)
    ensures Lighter(SentStep(s, at, o, false, d).pc, Sent(s, at, o, false))
  {
    match at
    case SentDrop =>
    case SentFree =>
    case SentCheck =>
  }

  lemma SendGetsOn(s: Sid, at: SendAt, ret: Ret, d: Sess, fails: bool, next: OpId)
    ensures Lighter(SendStep(s, at, ret, d, fails, next).pc, Sending(s, at, ret))
  {
    match at
    case SendGate(_) =>
    case SendPost(_) =>
    case SendAdd(_, _) =>
    case SendCall(_, _) =>
    case SendUndo(_) =>
    case SendFree(_) =>
  }

  /** A worker or the accept thread gets nearer to closing the session, or closes it. */
  lemma WorkerGetsOn(t: Tid, pc: Pc, d: Sess, fails: bool, next: OpId, logged: nat)
    requires pc != Idle && t != GameThread && Shape(t, pc) && MayTurn(pc, d) && MustClose(pc, d, pc.s)
    requires IsClosing(pc) ==> d.state != Connected
    ensures var turn := TurnOf(t, pc, d, fails, next, logged); turn.d.state != Connected || Lighter(turn.pc, pc)
  {
    match pc
    case Receiving(s, at, ok) => RecvGetsOn(s, at, ok, d);
    case Posting(s, at) => PostGetsOn(t, s, at, d, fails, next);
    case Sent(s, at, o, _) => SentGetsOn(s, at, o, d);
    case Ending(s, at, ret) => CloseMustClose(t, s, at, ret, d, logged);
    case Sending(s, at, ret) => SendGetsOn(s, at, ret, d, fails, next);
  }

  function DutyRank(pc: Pc): Rank {
    Rank(0, 0, |EffectsOf(pc)|, Work(pc))
  }

  lemma RunnerGetsOn(y: State, t: Tid, fails: bool, s: Sid)
    requires Safe(y) && CanRun(y, t) && ThreadMust(y, t, s) && IsOpen(RunStep(y, t, fails), s)
    ensures Below(DutyRank(PcOf(RunStep(y, t, fails), t)), DutyRank(PcOf(y, t)))
  {
    var pc := y.threads[t];
    assert ThreadOk(y, t) && ThreadEnding(y, t);
    if t == GameThread {
      GameGetsOn(pc, y.sessions[pc.s], fails, y.nextOp, |y.log|);
    } else {
      NoEffectsElsewhere(t, pc);
      WorkerGetsOn(t, pc, y.sessions[pc.s], fails, y.nextOp, |y.log|);
    }
  }

  /** The duty stays with its thread, whose own steps bring it nearer to the close. */
  ghost predicate GetsNearer(y: State, y1: State, a: Action, t: Tid, s: Sid) {
    IsOpen(y1, s) ==>
      && ThreadMust(y1, t, s)
      && (Below(DutyRank(PcOf(y1, t)), DutyRank(PcOf(y, t))) || (!IsBy(a, OfThread(t)) && PcOf(y1, t) == PcOf(y, t)))
  }

  lemma StepGetsNearer(y: State, a: Action, t: Tid, s: Sid)
    requires Safe(y) && Enabled(y, a) && IsOpen(y, s) && ThreadMust(y, t, s)
    ensures GetsNearer(y, Next(y, a), a, t, s)
  {
    if IsOpen(Next(y, a), s) {
      StepKeepsDuty(y, a, t, s);
      if a.Run? && a.t == t {
        RunnerGetsOn(y, t, a.fails, s);
      } else {
        BusyStays(y, a, t);
      }
    }
  }

  lemma BusyStays(y: State, a: Action, t: Tid)
    requires Enabled(y, a) && PcOf(y, t) != Idle && !(a.Run? && a.t == t)
    ensures PcOf(Next(y, a), t) == PcOf(y, t)
  {
  }

  lemma {:induction false} DutyFalls(ys: nat -> State, actions: nat -> Action, i: nat, j: nat, t: Tid, s: Sid) returns (k: nat)
    requires IsEndless(ys, actions) && Safe(ys(0)) && i <= j && IsBy(actions(j), OfThread(t))
    requires IsOpen(ys(i), s) && ThreadMust(ys(i), t, s)
    ensures i < k && (IsOpen(ys(k), s) ==> ThreadMust(ys(k), t, s) && Below(DutyRank(PcOf(ys(k), t)), DutyRank(PcOf(ys(i), t))))
    decreases j - i
  {
    k := i + 1;
    EndlessIsSafe(ys, actions, i);
    StepGetsNearer(ys(i), actions(i), t, s);
    if IsOpen(ys(k), s) && !Below(DutyRank(PcOf(ys(k), t)), DutyRank(PcOf(ys(i), t))) {
      k := DutyFalls(ys, actions, i + 1, j, t, s);
    }
  }

  /** A session that a thread is bound to close is closed in the end. */
  lemma {:induction false} DutyCloses(ys: nat -> State, actions: nat -> Action, i: nat, t: Tid, s: Sid) returns (j: nat)
    requires IsEndless(ys, actions) && Safe(ys(0)) && IsFair(ys, actions) && ThreadMust(ys(i), t, s)
    ensures j >= i && !IsOpen(ys(j), s)
    decreases DutyRank(PcOf(ys(i), t)).b, DutyRank(PcOf(ys(i), t)).c
  {
    j := i;
    if IsOpen(ys(i), s) {
      assert Awaits(ys(i), OfThread(t));
      assert Happens(actions, OfThread(t), i);
      var n: nat :| n >= i && IsBy(actions(n), OfThread(t));
      j := DutyFalls(ys, actions, i, n, t, s);
      if IsOpen(ys(j), s) {
        j := DutyCloses(ys, actions, j, t, s);
      }
    }
  }

  // ---- a completion, and bytes that make no sense -------------------------------------------------

  lemma {:induction false} QueueFalls(ys: nat -> State, actions: nat -> Action, i: nat, j: nat, o: OpId, s: Sid) returns (k: nat, t: Tid)
    requires IsEndless(ys, actions) && Safe(ys(0)) && i <= j && IsBy(actions(j), OfPort(o))
    requires IsOpen(ys(i), s) && QueueMust(ys(i), o, s)
    ensures i < k && (IsOpen(ys(k), s) ==> ThreadMust(ys(k), t, s))
    decreases j - i
  {
    k := i + 1;
    t := if actions(i).Take? then Worker(actions(i).n) else GameThread;
    EndlessIsSafe(ys, actions, i);
    if IsOpen(ys(k), s) {
      StepKeepsQueued(ys(i), actions(i), o, s);
      if !ThreadMust(ys(k), t, s) {
        NotTaken(ys(i), actions(i), o);
        k, t := QueueFalls(ys, actions, i + 1, j, o, s);
      }
    }
  }

  /** A completion still in the queue has not just been taken. */
  lemma NotTaken(y: State, a: Action, o: OpId)
    requires Enabled(y, a) && o in Next(y, a).queue
    ensures !IsBy(a, OfPort(o))
  {
  }

  lemma {:induction false} EndlessHandsKnown(ys: nat -> State, actions: nat -> Action, i: nat)
    requires IsEndless(ys, actions) && Init(ys(0))
    ensures HandsKnown(ys(i))
  {
    if i > 0 {
      EndlessHandsKnown(ys, actions, i - 1);
      StepHandsKnown(ys(i - 1), actions(i - 1));
    }
  }

  lemma NonsenseCloses(ys: nat -> State, actions: nat -> Action, i: nat, s: Sid) returns (j: nat)
    requires IsEndless(ys, actions) && Init(ys(0)) && IsFair(ys, actions)
    requires s in ys(i).sessions && !MakesSense(ys(i).sessions[s].wire)
    ensures j >= i && !IsOpen(ys(j), s)
  {
    InitIsSafe(ys(0));
    j := ListensAgain(ys, actions, i, s);
    if IsOpen(ys(j), s) {
      HistoryGrows(ys, actions, i, j, s);
      SenseStaysLost(ys(i).sessions[s].wire, ys(j).sessions[s].wire);
      EndlessIsSafe(ys, actions, j);
      EndlessHandsKnown(ys, actions, j);
      ListeningMakesSense(ys(j), s);
    }
  }

  lemma SenseStaysLost(wire: seq<byte>, wire1: seq<byte>)
    requires wire <= wire1 && !MakesSense(wire)
    ensures !MakesSense(wire1)
  {
    SenseIsLost(wire, wire1[|wire|..]);
    assert wire + wire1[|wire|..] == wire1;
  }

  // ---- together -----------------------------------------------------------------------------------

  ghost predicate SessionLasts(y: State, y1: State, s: Sid) {
    s in y.sessions ==> s in y1.sessions
  }

  lemma OneStepLasts(ys: nat -> State, actions: nat -> Action, k: nat, s: Sid)
    requires IsEndless(ys, actions) && Safe(ys(0))
    ensures SessionLasts(ys(k), ys(k + 1), s)
  {
    EndlessIsSafe(ys, actions, k);
    if s in ys(k).sessions {
      SessionStays(ys(k), actions(k), s);
    }
  }

  lemma {:induction false} LastsAndLasts(ys: nat -> State, i: nat, j: nat, s: Sid)
    requires i <= j && forall k: nat :: SessionLasts(ys(k), ys(k + 1), s)
    ensures SessionLasts(ys(i), ys(j), s)
    decreases j - i
  {
    if i < j {
      LastsAndLasts(ys, i, j - 1, s);
      assert SessionLasts(ys(j - 1), ys(j - 1 + 1), s);
    }
  }

  lemma SessionsLast(ys: nat -> State, actions: nat -> Action, i: nat, j: nat, s: Sid)
    requires IsEndless(ys, actions) && Safe(ys(0)) && i <= j && s in ys(i).sessions
    ensures s in ys(j).sessions
  {
    forall k: nat ensures SessionLasts(ys(k), ys(k + 1), s) { OneStepLasts(ys, actions, k, s); }
    LastsAndLasts(ys, i, j, s);
  }

  /** A session that is bound to end is closed in the end. */
  lemma EndsIsClosed(ys: nat -> State, actions: nat -> Action, i: nat, s: Sid) returns (j: nat)
    requires IsEndless(ys, actions) && Init(ys(0)) && IsFair(ys, actions) && Ends(ys(i), s)
    ensures j >= i && s in ys(j).sessions && ys(j).sessions[s].state != Connected
  {
    InitIsSafe(ys(0));
    j := i;
    if IsOpen(ys(i), s) {
      if !MakesSense(ys(i).sessions[s].wire) {
        j := NonsenseCloses(ys, actions, i, s);
      } else if t :| ThreadMust(ys(i), t, s) {
        j := DutyCloses(ys, actions, i, t, s);
      } else {
        var o :| QueueMust(ys(i), o, s);
        j := CompletionCloses(ys, actions, i, o, s);
      }
    }
    SessionsLast(ys, actions, i, j, s);
  }

  lemma CompletionCloses(ys: nat -> State, actions: nat -> Action, i: nat, o: OpId, s: Sid) returns (j: nat)
    requires IsEndless(ys, actions) && Safe(ys(0)) && IsFair(ys, actions) && IsOpen(ys(i), s) && QueueMust(ys(i), o, s)
    ensures j >= i && !IsOpen(ys(j), s)
  {
    assert Awaits(ys(i), OfPort(o));
    assert Happens(actions, OfPort(o), i);
    var n: nat :| n >= i && IsBy(actions(n), OfPort(o));
    var k, t := QueueFalls(ys, actions, i, n, o, s);
    j := k;
    if IsOpen(ys(k), s) {
      j := DutyCloses(ys, actions, k, t, s);
    }
  }

  /** Whenever there is a reason to close a session, it is closed in the end, and deleted, once, however much other
      traffic goes on, unless a job dangles before that. */
  lemma ReasonsDelete(ys: nat -> State, actions: nat -> Action, i: nat, s: Sid) returns (j: nat)
    requires IsEndless(ys, actions) && Init(ys(0)) && IsFair(ys, actions) && GivesReason(ys(i), actions(i), s)
    ensures j > i && ((s in ys(j).sessions && ys(j).sessions[s].deletions == 1) || IsBlocked(ys(j)))
  {
    InitIsSafe(ys(0));
    EndlessIsSafe(ys, actions, i);
    ReasonEnds(ys(i), actions(i), s);
    var k := EndsIsClosed(ys, actions, i + 1, s);
    j := ClosedIsDeleted(ys, actions, k, s);
  }
}
