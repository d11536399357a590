/** The job log: one Connect first, at most one Disconnect, and who is in the lobby because of them. */
module ServerLog {
  import opened Bytes
  import opened Framing
  import opened Protocol
  import opened Lobby
  import opened Session
  import opened Server
  import opened ServerShape
  import opened ServerEnding

  /** The accept thread before it has announced the session. */
  predicate Unannounced(pc: Pc) {
    pc.Accepting? && pc.acc != AccAssociate
  }

  ghost predicate JobLogged(y: State, i: int) {
    0 <= i < |y.log| ==>
      y.log[i].s in y.sessions &&
      var d := y.sessions[y.log[i].s];
      match y.log[i]
      case Connect(_) => d.connectAt == i
      case Disconnect(_) => d.disconnectAt == i
      case Deliver(_, _) => 0 <= d.connectAt < i
  }

  /** The stage of the disconnect and where its job is. */
  predicate EndingLogged(d: Sess, done: nat) {
    match d.ending
    case NotYet => d.disconnectAt == -1
    case ClosingBy(_) => d.disconnectAt == -1
    case JobQueued => d.disconnectAt >= done
    case _ => 0 <= d.disconnectAt < done
  }

  predicate InLobby(d: Sess, done: nat) {
    0 <= d.connectAt < done && !(0 <= d.disconnectAt < done)
  }

  ghost predicate SessionLogged(y: State, s: Sid) {
    s in y.sessions ==>
      var d := y.sessions[s];
      && -1 <= d.connectAt < |y.log| && -1 <= d.disconnectAt < |y.log|
      && (d.connectAt >= 0 ==> y.log[d.connectAt] == Connect(s))
      && (d.disconnectAt >= 0 ==> 0 <= d.connectAt < d.disconnectAt && y.log[d.disconnectAt] == Disconnect(s))
      && (d.connectAt == -1 ==> Acceptor in y.threads && Unannounced(y.threads[Acceptor]) && y.threads[Acceptor].s == s)
      && EndingLogged(d, y.done)
      && (s in y.lobby.players <==> InLobby(d, y.done))
  }

  /** Only the accept thread is at a session not announced. */
  ghost predicate ThreadLogged(y: State, t: Tid) {
    t in y.threads && y.threads[t] != Idle ==>
      y.threads[t].s in y.sessions && (Unannounced(y.threads[t]) <==> y.sessions[y.threads[t].s].connectAt == -1)
  }

  ghost predicate Logged(y: State) {
    && y.done <= |y.log|
    && (forall i :: JobLogged(y, i)) && (forall s :: SessionLogged(y, s)) && (forall t :: ThreadLogged(y, t))
  }

  /** Whom the game thread has yet to speak to is in the lobby. */
  ghost predicate Spoken(lobby: Lobby, pc: Pc) {
    && (pc.Sending? || pc.Ending? ==> pc.s in lobby.players)
    && (forall i :: 0 <= i < |EffectsOf(pc)| ==> EffectsOf(pc)[i].to in lobby.players)
  }

  /** The job the game thread runs is of an announced session. */
  ghost predicate GameSpeaks(y: State) {
    GameThread in y.threads && y.threads[GameThread] != Idle ==>
      && Spoken(y.lobby, y.threads[GameThread])
      && Home(y.threads[GameThread]) in y.sessions && y.sessions[Home(y.threads[GameThread])].connectAt >= 0
  }

  /** The game thread turns to the next effect's session, or stays with the one it speaks to. */
  predicate SpeakLocal(t: Tid, pc: Pc, turn: Turn) {
    pc != Idle &&
    (t == GameThread && (turn.pc.Sending? || turn.pc.Ending?) ==>
       ((pc.Sending? || pc.Ending?) && turn.pc.s == pc.s) || (EffectsOf(pc) != [] && turn.pc.s == EffectsOf(pc)[0].to))
  }

  lemma SpeaksKept(y: State, t: Tid, s: Sid, turn: Turn)
    requires GameSpeaks(y) && t in y.threads && y.threads[t] != Idle && y.threads[t].s == s && s in y.sessions
    requires ShapeLocal(t, y.threads[t], turn) && SpeakLocal(t, y.threads[t], turn)
    requires LogLocal(y.threads[t], y.sessions[s], turn, |y.log|)
    ensures GameSpeaks(Apply(y, t, s, turn))
  {
  }

  /** What a step may push: the announcement, a delivery of an announced session, or the one disconnect. */
  predicate LogLocal(pc: Pc, d: Sess, turn: Turn, logged: nat) {
    var pc1, d1 := turn.pc, turn.d;
    && pc != Idle
    && (turn.touch.Push? ==> turn.touch.job.s == pc.s)
    && (if turn.touch.Push? && turn.touch.job.Connect?
        then Unannounced(pc) && d1.connectAt == logged && pc1 != Idle && !Unannounced(pc1) && pc1.s == pc.s
        else d1.connectAt == d.connectAt && (Unannounced(pc1) <==> Unannounced(pc)))
    && (turn.touch.Push? && turn.touch.job.Deliver? ==> !Unannounced(pc))
    && (if turn.touch.Push? && turn.touch.job.Disconnect?
        then !Unannounced(pc) && d1.ending == JobQueued && d1.disconnectAt == logged && (d.ending.ClosingBy? || !IsClosing(pc))
        else d1.disconnectAt == d.disconnectAt)
    && (turn.touch.Push? && turn.touch.job.Disconnect? ==> IsClosing(pc))
    && (d1.ending == d.ending
        || (d.ending.NotYet? && d1.ending.ClosingBy?)
        || (d1.ending == JobQueued && turn.touch.Push? && turn.touch.job.Disconnect?)
        || (d.ending.Processing? && d1.ending.CleanedUp?))
  }

  lemma LoggedKept(y: State, t: Tid, s: Sid, turn: Turn)
    requires Logged(y) && t in y.threads && y.threads[t] != Idle && y.threads[t].s == s && s in y.sessions
    requires LogLocal(y.threads[t], y.sessions[s], turn, |y.log|)
    requires IsClosing(y.threads[t]) ==> y.sessions[s].ending.ClosingBy?
    requires Shaped(y)
    requires turn.pc != Idle ==>
               turn.pc.s in y.sessions && (turn.pc.s == s || (!Unannounced(turn.pc) && y.sessions[turn.pc.s].connectAt >= 0))
    ensures Logged(Apply(y, t, s, turn))
  {
    var y1 := Apply(y, t, s, turn);
    assert ThreadLogged(y, t) && SessionLogged(y, s) && ThreadOk(y, t);
    forall i ensures JobLogged(y1, i) { assert JobLogged(y, i); }
    forall r ensures SessionLogged(y1, r) { assert SessionLogged(y, r); }
    forall u ensures ThreadLogged(y1, u) { assert ThreadLogged(y, u) && ThreadOk(y, u); }
  }

  lemma AcceptLogged(y: State, s: Sid)
    requires Logged(y) && Acceptor in y.threads && y.threads[Acceptor] == Idle && s !in y.sessions && s !in y.lobby.players
    ensures Logged(AcceptNew(y, s))
  {
    var y1 := AcceptNew(y, s);
    forall i ensures JobLogged(y1, i) { assert JobLogged(y, i); }
    forall r ensures SessionLogged(y1, r) { assert SessionLogged(y, r); }
    forall u ensures ThreadLogged(y1, u) { assert ThreadLogged(y, u); }
  }

  /** Sessions keep their history, and an idle thread starts on an announced session. */
  lemma ElsewhereLogged(y: State, y1: State, t: Tid, s: Sid)
    requires Logged(y) && t in y.threads && s in y.sessions && s in y1.sessions
    requires t in y1.threads && y1.threads == y.threads[t := y1.threads[t]]
    requires y1.threads[t] == y.threads[t] ||
             (t != Acceptor && y1.threads[t] != Idle && !Unannounced(y1.threads[t]) && y1.threads[t].s == s && y.sessions[s].connectAt >= 0)
    requires y1.sessions == y.sessions[s := y1.sessions[s]]
    requires y1.sessions[s].connectAt == y.sessions[s].connectAt && y1.sessions[s].disconnectAt == y.sessions[s].disconnectAt
    requires y1.sessions[s].ending == y.sessions[s].ending
    requires y1.log == y.log && y1.done == y.done && y1.lobby == y.lobby
    ensures Logged(y1)
  {
    assert SessionLogged(y, s);
    forall i ensures JobLogged(y1, i) { assert JobLogged(y, i); }
    forall r ensures SessionLogged(y1, r) { assert SessionLogged(y, r); }
    forall u ensures ThreadLogged(y1, u) { assert ThreadLogged(y, u); }
  }

  /** The lobby changes as the job popped says. */
  ghost predicate LobbyFollows(players: set<Sid>, players1: set<Sid>, job: Job) {
    match job
    case Connect(s) => players1 == players + {s}
    case Disconnect(s) => players1 == players - {s}
    case Deliver(_, _) => players1 == players
  }

  lemma PopLogged(y: State, y1: State, job: Job)
    requires Logged(y) && y.done < |y.log| && y.log[y.done] == job && job.s in y.sessions
    requires GameThread in y.threads && GameThread in y1.threads && y1.threads == y.threads[GameThread := y1.threads[GameThread]]
    requires y1.threads[GameThread] != Idle && y1.threads[GameThread].s == job.s && !Unannounced(y1.threads[GameThread])
    requires y1.sessions == y.sessions[job.s := if job.Disconnect? then y.sessions[job.s].(ending := Processing) else y.sessions[job.s]]
    requires y1.log == y.log && y1.done == y.done + 1
    requires LobbyFollows(y.lobby.players.Keys, y1.lobby.players.Keys, job)
    ensures Logged(y1)
  {
    assert JobLogged(y, y.done) && SessionLogged(y, job.s);
    forall i ensures JobLogged(y1, i) { assert JobLogged(y, i); }
    forall r ensures SessionLogged(y1, r) {
      assert SessionLogged(y, r);
      assert r in y1.lobby.players <==> r in y1.lobby.players.Keys;
      assert r in y.lobby.players <==> r in y.lobby.players.Keys;
    }
    forall u ensures ThreadLogged(y1, u) { assert ThreadLogged(y, u); }
  }
}
