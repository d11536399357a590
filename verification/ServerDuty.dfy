/** When a thread is bound to close a session, and that it comes to be so for a reason only and stays so until it has. */
module ServerDuty {
  import opened Bytes
  import opened Framing
  import opened Protocol
  import opened Lobby
  import opened Session
  import R = RingBuffer
  import opened Server
  import opened ServerShape

  // ---- bound to close -----------------------------------------------------------------------------

  /** A thread at pc has yet to make sure that session s, which is as in d, is closed. */
  predicate MustClose(pc: Pc, d: Sess, s: Sid) {
    || Close(s) in EffectsOf(pc)
    || match pc
       case Idle => false
       case Receiving(r, at, ok) => r == s && at in {RecvFlag, RecvDrop, RecvCheck} && (!ok || d.buffer == [])
       case Posting(r, at) => r == s && at in {PostUndoFlag, PostUndoAdd}
       case Sent(r, _, _, ok) => r == s && !ok
       case Ending(r, _, _) => r == s
       case Sending(r, at, ret) => r == s && (at.SendUndo? || at.SendFree? || ret.KickThenClose?)
       case _ => false
  }

  /** The game thread has yet to carry out a Close(s), or is at it. */
  predicate IsAsked(pc: Pc, s: Sid) {
    Close(s) in EffectsOf(pc) || (pc.Ending? && pc.s == s)
  }

  /** At a call of the kernel for s. */
  predicate IsCalling(pc: Pc, s: Sid) {
    || pc == Posting(s, PostCall)
    || (pc.Sending? && pc.s == s && pc.send.SendCall?)
  }

  lemma RecvMustClose(s: Sid, at: RecvAt, ok: bool, d: Sess)
    requires at in {RecvFlag, RecvDrop, RecvCheck} && (!ok || d.buffer == [])
    ensures var turn := RecvStep(s, at, ok, d); turn.d.buffer == d.buffer && MustClose(turn.pc, turn.d, s)
  {
    match at
    case RecvFlag =>
    case RecvDrop =>
    case RecvCheck =>
  }

  lemma PostMustClose(t: Tid, s: Sid, at: PostRecvAt, d: Sess, fails: bool, next: OpId)
    requires at in {PostUndoFlag, PostUndoAdd} || (at == PostCall && (fails || !d.socketOpen))
    ensures var turn := PostStep(t, s, at, d, fails, next); MustClose(turn.pc, turn.d, s)
  {
    match at
    case PostCall =>
    case PostUndoFlag =>
    case PostUndoAdd =>
  }

  lemma SentMustClose(s: Sid, at: SentAt, o: OpId, d: Sess)
    ensures var turn := SentStep(s, at, o, false, d); MustClose(turn.pc, turn.d, s)
  {
    match at
    case SentDrop =>
    case SentFree =>
    case SentCheck =>
  }

  lemma CasMustClose(t: Tid, s: Sid, ret: Ret, d: Sess, logged: nat)
    ensures CloseStep(t, s, CloseCas, ret, d, logged).d.state != Connected
  {
    if d.state == Connected { } else { }
  }

  lemma CloseMustClose(t: Tid, s: Sid, at: CloseAt, ret: Ret, d: Sess, logged: nat)
    requires at != CloseCas ==> d.state != Connected
    ensures CloseStep(t, s, at, ret, d, logged).d.state != Connected
  {
    match at
    case CloseCas => CasMustClose(t, s, ret, d, logged);
    case CloseIssue =>
    case CloseSocket =>
    case CloseStore =>
    case ClosePush =>
  }

  lemma SendMustClose(s: Sid, at: SendAt, ret: Ret, d: Sess, fails: bool, next: OpId)
    requires at.SendUndo? || at.SendFree? || ret.KickThenClose? || (at.SendCall? && (fails || !d.socketOpen))
    ensures var turn := SendStep(s, at, ret, d, fails, next); MustClose(turn.pc, turn.d, s)
  {
    match at
    case SendGate(_) =>
    case SendPost(_) =>
    case SendAdd(_, _) =>
    case SendCall(_, _) =>
    case SendUndo(_) =>
    case SendFree(_) =>
  }

  /** A thread at s that is bound to close it closes it or remains bound to. */
  lemma DutyGoesOn(t: Tid, pc: Pc, d: Sess, fails: bool, next: OpId, logged: nat, s: Sid)
    requires pc != Idle && pc.s == s && Shape(t, pc) && MayTurn(pc, d) && (IsClosing(pc) ==> d.state != Connected)
    requires Close(s) !in EffectsOf(pc)
    requires MustClose(pc, d, s) || (IsCalling(pc, s) && fails)
    ensures var turn := TurnOf(t, pc, d, fails, next, logged); turn.d.state != Connected || MustClose(turn.pc, turn.d, s)
  {
    match pc
    case Receiving(_, at, ok) => RecvMustClose(s, at, ok, d);
    case Posting(_, at) => PostMustClose(t, s, at, d, fails, next);
    case Sent(_, at, o, _) => SentMustClose(s, at, o, d);
    case Ending(_, at, ret) => CloseMustClose(t, s, at, ret, d, logged);
    case Sending(_, at, ret) => SendMustClose(s, at, ret, d, fails, next);
  }

  /** The game thread that is asked to close s gets to it, whatever comes before. */
  lemma AskedGoesOn(t: Tid, pc: Pc, d: Sess, fails: bool, next: OpId, logged: nat, s: Sid)
    requires pc != Idle && Shape(t, pc) && MayTurn(pc, d) && Close(s) in EffectsOf(pc)
    ensures IsAsked(TurnOf(t, pc, d, fails, next, logged).pc, s)
  {
    match pc
    case Gaming(_, at) => if at.fx[0] != Close(s) { assert Close(s) in at.fx[1..]; }
    case Ending(_, at, ret) => AskedAfterClose(t, pc.s, at, ret, d, logged);
    case Sending(_, at, ret) => AskedAfterSend(pc.s, at, ret, d, fails, next);
  }

  lemma AskedAfterClose(t: Tid, s: Sid, at: CloseAt, ret: Ret, d: Sess, logged: nat)
    requires ret.ToGame?
    ensures EffectsOf(CloseStep(t, s, at, ret, d, logged).pc) == ret.fx
  {
    match at
    case CloseCas =>
    case CloseIssue =>
    case CloseSocket =>
    case CloseStore =>
    case ClosePush =>
  }

  lemma AskedAfterSend(s: Sid, at: SendAt, ret: Ret, d: Sess, fails: bool, next: OpId)
    requires ret.ToGame?
    ensures EffectsOf(SendStep(s, at, ret, d, fails, next).pc) == ret.fx
  {
    match at
    case SendGate(_) =>
    case SendPost(_) =>
    case SendAdd(_, _) =>
    case SendCall(_, _) =>
    case SendUndo(_) =>
    case SendFree(_) =>
  }

  // ---- nothing closes without a reason ------------------------------------------------------------

  /** The packet the thread is about to hand over, or the header it looks at, is in order. */
  predicate ScansClean(pc: Pc, d: Sess) {
    match pc
    case Scanning(_, at) =>
      && (at.FrameScan? ==> !Framing.Malformed(d.ring))
      && (at.ProcGate? ==> at.p.Valid() && Known(at.p.id))
    case Receiving(_, at, _) => at == RecvFill ==> |d.ring| + |d.buffer| <= R.RING_SIZE
    case _ => true
  }

  lemma PostIsNoReason(t: Tid, s: Sid, at: PostRecvAt, d: Sess, fails: bool, next: OpId)
    requires !MustClose(Posting(s, at), d, s) && d.socketOpen && !(at == PostCall && fails)
    ensures var turn := PostStep(t, s, at, d, fails, next); turn.d.state == d.state && !MustClose(turn.pc, turn.d, s)
  {
    match at
    case PostGate =>
    case PostCas =>
    case PostAdd =>
    case PostCall =>
  }

  lemma RecvIsNoReason(s: Sid, at: RecvAt, ok: bool, d: Sess)
    requires !MustClose(Receiving(s, at, ok), d, s) && ScansClean(Receiving(s, at, ok), d)
    ensures var turn := RecvStep(s, at, ok, d); turn.d.state == d.state && !MustClose(turn.pc, turn.d, s)
  {
    match at
    case RecvFlag =>
    case RecvDrop =>
    case RecvCheck =>
    case RecvGate =>
    case RecvFill =>
  }

  lemma FrameIsNoReason(s: Sid, at: FrameAt, d: Sess)
    requires (at.SkipBody? ==> |at.p.body| <= |d.ring|) && ScansClean(Scanning(s, at), d)
    requires d.state == Connected
    ensures var turn := FrameStep(s, at, d); turn.d.state == d.state && !MustClose(turn.pc, turn.d, s)
  {
    match at
    case FrameScan =>
    case ProcGate(_) =>
    case ProcPush(_) =>
    case SkipBody(_) =>
  }

  lemma SentIsNoReason(s: Sid, at: SentAt, o: OpId, d: Sess)
    ensures var turn := SentStep(s, at, o, true, d); turn.d.state == d.state && !MustClose(turn.pc, turn.d, s)
  {
    match at
    case SentDrop =>
    case SentFree =>
    case SentCheck =>
  }

  lemma SendIsNoReason(s: Sid, at: SendAt, ret: Ret, d: Sess, fails: bool, next: OpId)
    requires ret.ToGame? && !MustClose(Sending(s, at, ret), d, s) && d.socketOpen && !(at.SendCall? && fails)
    ensures var turn := SendStep(s, at, ret, d, fails, next); turn.d.state == d.state && !MustClose(turn.pc, turn.d, s)
  {
    match at
    case SendGate(_) =>
    case SendPost(_) =>
    case SendAdd(_, _) =>
    case SendCall(_, _) =>
  }

  lemma DestroyIsNoReason(t: Tid, s: Sid, at: DestroyAt, d: Sess)
    ensures var turn := DestroyStep(t, s, at, d); turn.d.state == d.state && !MustClose(turn.pc, turn.d, s)
  {
    match at
    case TdState =>
    case TdCleanup =>
    case TdPending =>
    case TdCas =>
    case TdRemove =>
    case TdDelete =>
  }

  lemma AcceptIsNoReason(s: Sid, at: AcceptAt, d: Sess, logged: nat)
    ensures var turn := AcceptStep(s, at, d, logged); turn.d.state == d.state && !MustClose(turn.pc, turn.d, s)
  {
    match at
    case AccRegister =>
    case AccAnnounce =>
    case AccAssociate =>
  }

  lemma GameIsNoReason(r: Sid, at: GameAt, d: Sess, s: Sid, d1: Sess)
    requires !MustClose(Gaming(r, at), d1, s)
    ensures var turn := GameStep(r, at, d); turn.d.state == d.state && !MustClose(turn.pc, d1, s)
  {
    match at
    case GameRun(fx, _) =>
    case GameMark =>
    case GameWake =>
  }

  /** A thread at an open s that is not bound to close it does not become so by itself. */
  lemma NoDutyArises(t: Tid, pc: Pc, d: Sess, fails: bool, next: OpId, logged: nat, s: Sid)
    requires pc != Idle && pc.s == s && Shape(t, pc) && MayTurn(pc, d) && !MustClose(pc, d, s) && ScansClean(pc, d)
    requires d.state == Connected && d.socketOpen && !(IsCalling(pc, s) && fails)
    ensures var turn := TurnOf(t, pc, d, fails, next, logged); turn.d.state == Connected && !MustClose(turn.pc, turn.d, s)
  {
    match pc
    case Accepting(_, at) => AcceptIsNoReason(s, at, d, logged);
    case Posting(_, at) => PostIsNoReason(t, s, at, d, fails, next);
    case Receiving(_, at, ok) => RecvIsNoReason(s, at, ok, d);
    case Scanning(_, at) => FrameIsNoReason(s, at, d);
    case Sent(_, at, o, _) => SentIsNoReason(s, at, o, d);
    case Sending(_, at, ret) => SendIsNoReason(s, at, ret, d, fails, next);
    case Destroying(_, at) => DestroyIsNoReason(t, s, at, d);
    case Gaming(_, at) => GameIsNoReason(s, at, d, s, GameStep(s, at, d).d);
  }

  /** A step elsewhere: the thread is at the same session still, or back at its job with the effects that are left. */
  predicate IsElsewhere(pc: Pc, pc1: Pc, s: Sid) {
    EffectsOf(pc1) == EffectsOf(pc) && (pc1 == Idle || pc1.s != s || pc1.Gaming?)
  }

  lemma CloseElsewhere(t: Tid, r: Sid, at: CloseAt, ret: Ret, d: Sess, logged: nat, s: Sid)
    requires r != s
    ensures IsElsewhere(Ending(r, at, ret), CloseStep(t, r, at, ret, d, logged).pc, s)
  {
    match at
    case CloseCas =>
    case CloseIssue =>
    case CloseSocket =>
    case CloseStore =>
    case ClosePush =>
  }

  lemma SendElsewhere(r: Sid, at: SendAt, ret: Ret, d: Sess, fails: bool, next: OpId, s: Sid)
    requires r != s
    ensures IsElsewhere(Sending(r, at, ret), SendStep(r, at, ret, d, fails, next).pc, s)
  {
    match at
    case SendGate(_) =>
    case SendPost(_) =>
    case SendAdd(_, _) =>
    case SendCall(_, _) =>
    case SendUndo(_) =>
    case SendFree(_) =>
  }

  /** Nor does one that is at another session. */
  lemma NoDutyFromAfar(t: Tid, pc: Pc, d: Sess, fails: bool, next: OpId, logged: nat, s: Sid, d1: Sess)
    requires pc != Idle && pc.s != s && Shape(t, pc) && MayTurn(pc, d) && !MustClose(pc, d1, s)
    requires ShapeLocal(t, pc, TurnOf(t, pc, d, fails, next, logged))
    ensures !MustClose(TurnOf(t, pc, d, fails, next, logged).pc, d1, s)
  {
    match pc
    case Gaming(r, at) => GameIsNoReason(r, at, d, s, d1);
    case Ending(r, at, ret) => CloseElsewhere(t, r, at, ret, d, logged, s);
    case Sending(r, at, ret) => SendElsewhere(r, at, ret, d, fails, next, s);
    case _ =>
  }
}
