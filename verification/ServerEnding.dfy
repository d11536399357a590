/** The one disconnect of a session: requested once, queued once, processed once. */
module ServerEnding {
  import opened Bytes
  import opened Framing
  import opened Protocol
  import opened Session
  import opened Server
  import opened ServerShape

  /** How far RequestClose and Close have come. */
  predicate Stage(pc: Pc, d: Sess)
    requires pc.Ending?
  {
    match pc.close
    case CloseCas => true
    case CloseIssue => d.state == SessionState.Closing && !d.closeIssued && d.socketOpen
    case CloseSocket => d.state == SessionState.Closing && d.closeIssued && d.socketOpen
    case CloseStore => d.state == SessionState.Closing && d.closeIssued && !d.socketOpen
    case ClosePush => d.state == Closed && d.closeIssued && !d.socketOpen
  }

  predicate IsShut(d: Sess) {
    d.state == Closed && d.closeIssued && !d.socketOpen
  }

  /** What the stage of the disconnect says of the session itself. */
  predicate EndingOk(d: Sess) {
    && d.gameCleanupDone == d.ending.CleanedUp?
    && match d.ending
       case NotYet => d.state == Connected && !d.closeIssued && d.socketOpen
       case ClosingBy(_) => d.state != Connected
       case _ => IsShut(d)
  }

  predicate EndingHere(t: Tid, pc: Pc, d: Sess) {
    EndingOk(d) && (IsClosing(pc) ==> d.ending == ClosingBy(t) && Stage(pc, d))
  }

  ghost predicate ThreadEnding(y: State, t: Tid) {
    t in y.threads && IsClosing(y.threads[t]) ==>
      y.threads[t].s in y.sessions && EndingHere(t, y.threads[t], y.sessions[y.threads[t].s])
  }

  ghost predicate SessionEnding(y: State, s: Sid) {
    s in y.sessions ==>
      var d := y.sessions[s];
      && EndingOk(d)
      && match d.ending
         case ClosingBy(t) => t in y.threads && IsClosing(y.threads[t]) && y.threads[t].s == s
         case Processing =>
           && GameThread in y.threads && y.threads[GameThread] != Idle
           && IsDisconnecting(y.threads[GameThread]) && Home(y.threads[GameThread]) == s
         case _ => true
  }

  ghost predicate GameEnding(y: State) {
    GameThread in y.threads && y.threads[GameThread] != Idle && IsDisconnecting(y.threads[GameThread]) ==>
      Home(y.threads[GameThread]) in y.sessions && y.sessions[Home(y.threads[GameThread])].ending == Processing
  }

  ghost predicate Endings(y: State) {
    (forall t :: ThreadEnding(y, t)) && (forall s :: SessionEnding(y, s)) && GameEnding(y)
  }

  predicate SameEnding(d: Sess, d1: Sess) {
    && d1.state == d.state && d1.closeIssued == d.closeIssued && d1.socketOpen == d.socketOpen
    && d1.gameCleanupDone == d.gameCleanupDone && d1.ending == d.ending
  }

  predicate Disconnects(pc: Pc) {
    pc != Idle && IsDisconnecting(pc)
  }

  /** What a step may do to the disconnect: begin it on an open session, take it a stage further, queue
      it, or, for the game thread, complete it. */
  predicate EndingLocal(t: Tid, pc: Pc, d: Sess, turn: Turn) {
    var pc1, d1 := turn.pc, turn.d;
    && pc != Idle
    && (if IsClosing(pc1) then pc1.s == pc.s && (IsClosing(pc) || d.ending == NotYet) && EndingHere(t, pc1, d1)
        else if IsClosing(pc) then d1.ending == JobQueued && EndingOk(d1)
        else if pc.Gaming? && pc.game == GameMark then d1.ending == CleanedUp && EndingOk(d1)
        else SameEnding(d, d1))
    && (t == GameThread ==>
          && (Disconnects(pc1) <==> Disconnects(pc) && !(pc.Gaming? && pc.game == GameMark))
          && (Disconnects(pc1) ==> Home(pc1) == Home(pc)))
    && (t != GameThread ==> !pc.Gaming?)
  }

  lemma EndingsKept(y: State, t: Tid, s: Sid, turn: Turn)
    requires Endings(y) && t in y.threads && y.threads[t] != Idle && y.threads[t].s == s && s in y.sessions
    requires EndingLocal(t, y.threads[t], y.sessions[s], turn)
    ensures Endings(Apply(y, t, s, turn))
  {
    var y1 := Apply(y, t, s, turn);
    assert ThreadEnding(y, t) && SessionEnding(y, s);
    forall u ensures ThreadEnding(y1, u) { assert ThreadEnding(y, u); }
    forall r ensures SessionEnding(y1, r) { assert SessionEnding(y, r); }
  }

  lemma AcceptEndings(y: State, s: Sid)
    requires Endings(y) && Acceptor in y.threads && y.threads[Acceptor] == Idle && s !in y.sessions
    ensures Endings(AcceptNew(y, s))
  {
    var y1 := AcceptNew(y, s);
    forall u ensures ThreadEnding(y1, u) { assert ThreadEnding(y, u); }
    forall r ensures SessionEnding(y1, r) { assert SessionEnding(y, r); }
  }

  /** No thread moves, and a session changes in nothing the disconnect is about. */
  lemma SameEndings(y: State, y1: State, s: Sid)
    requires Endings(y) && s in y.sessions && y1.threads == y.threads
    requires s in y1.sessions && y1.sessions == y.sessions[s := y1.sessions[s]] && SameEnding(y.sessions[s], y1.sessions[s])
    ensures Endings(y1)
  {
    assert SessionEnding(y, s);
    forall u ensures ThreadEnding(y1, u) { assert ThreadEnding(y, u); }
    forall r ensures SessionEnding(y1, r) { assert SessionEnding(y, r); }
  }

  /** No close moves, and thread t is not in one. */
  lemma ElsewhereEndings(y: State, y1: State, t: Tid, s: Sid)
    requires Endings(y) && t in y.threads && y.threads[t] == Idle && s in y.sessions
    requires t in y1.threads && y1.threads == y.threads[t := y1.threads[t]] && !IsClosing(y1.threads[t]) && !Disconnects(y1.threads[t])
    requires s in y1.sessions && y1.sessions == y.sessions[s := y1.sessions[s]] && SameEnding(y.sessions[s], y1.sessions[s])
    ensures Endings(y1)
  {
    assert SessionEnding(y, s);
    forall u ensures ThreadEnding(y1, u) { assert ThreadEnding(y, u); }
    forall r ensures SessionEnding(y1, r) { assert SessionEnding(y, r); }
  }

  /** A Disconnect job is taken up for a session whose close has been queued. */
  lemma PopDisconnectEndings(y: State, y1: State, s: Sid)
    requires Endings(y) && GameThread in y.threads && y.threads[GameThread] == Idle
    requires s in y.sessions && y.sessions[s].ending == JobQueued
    requires GameThread in y1.threads && y1.threads == y.threads[GameThread := y1.threads[GameThread]]
    requires Disconnects(y1.threads[GameThread]) && Home(y1.threads[GameThread]) == s && !IsClosing(y1.threads[GameThread])
    requires y1.sessions == y.sessions[s := y.sessions[s].(ending := Processing)]
    ensures Endings(y1)
  {
    assert SessionEnding(y, s);
    forall u ensures ThreadEnding(y1, u) { assert ThreadEnding(y, u); }
    forall r ensures SessionEnding(y1, r) { assert SessionEnding(y, r); }
  }
}
