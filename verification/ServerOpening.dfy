/**
 Until the accept thread has posted the first receive of a session, nothing else in the server is about
 that session except its Connect job; so an operation can only be on a session tied to the completion port.
 */
module ServerOpening {
  import opened Bytes
  import opened Framing
  import opened Protocol
  import opened Lobby
  import opened Session
  import opened Server
  import opened ServerShape

  /** The accept thread has the session to itself. */
  predicate IsOpening(pc: Pc) {
    pc != Idle && !IsClosing(pc)
  }

  /** A thread with nothing to do with s, or running its Connect job, which has no effects. */
  predicate Apart(pc: Pc, s: Sid) {
    || pc == Idle
    || pc == Gaming(s, GameRun([], false))
    || (pc.s != s && Home(pc) != s && forall i :: 0 <= i < |EffectsOf(pc)| ==> EffectsOf(pc)[i].to != s)
  }

  ghost predicate ThreadApart(y: State, u: Tid, s: Sid) {
    u in y.threads && u != Acceptor ==> Apart(y.threads[u], s)
  }

  ghost predicate Pristine(y: State, s: Sid) {
    && s in y.sessions && y.sessions[s].state == Connected
    && (forall o :: o in y.kernel ==> y.kernel[o].s != s)
    && (forall o :: o in y.queue ==> y.queue[o].s != s)
    && (forall u :: ThreadApart(y, u, s))
    && (forall i :: 0 <= i < |y.log| && y.log[i].s == s ==> y.log[i] == Connect(s))
    && (s in y.lobby.players ==> y.lobby.players[s].room.Null?)
  }

  /** Not tied to the port: the accept thread is about to. */
  ghost predicate Tied(y: State, s: Sid) {
    s in y.sessions && !y.sessions[s].associated ==>
      Acceptor in y.threads && y.threads[Acceptor].Accepting? && y.threads[Acceptor].s == s
  }

  ghost predicate Openings(y: State) {
    && (Acceptor in y.threads && IsOpening(y.threads[Acceptor]) ==> Pristine(y, y.threads[Acceptor].s))
    && (forall s :: Tied(y, s))
  }

  predicate OpeningLocal(t: Tid, pc: Pc, d: Sess, turn: Turn) {
    var pc1, d1 := turn.pc, turn.d;
    && pc != Idle
    && (t == Acceptor && IsOpening(pc1) ==>
          && IsOpening(pc) && pc1.s == pc.s && d1.state == d.state
          && (turn.touch == NoTouch || turn.touch == Push(Connect(pc.s)) || turn.touch.NewContext? || turn.touch.FreeContext?))
    && (t == Acceptor && pc.Accepting? && pc1.Accepting? ==> pc1.s == pc.s)
    && (pc1.Accepting? ==> pc.Accepting?)
    && (pc.Accepting? && !pc1.Accepting? ==> d1.associated)
    && (d.associated ==> d1.associated)
    && (turn.touch.Push? ==> turn.touch.job.s == pc.s)
    && (pc == Gaming(pc.s, GameRun([], false)) ==> pc1 == Idle && d1 == d && turn.touch == NoTouch)
  }

  /** Whoever has nothing to do with s still has not after a step. */
  lemma ApartKept(t: Tid, pc: Pc, turn: Turn, s: Sid)
    requires ShapeLocal(t, pc, turn) && Apart(pc, s)
    requires pc == Gaming(pc.s, GameRun([], false)) ==> turn.pc == Idle
    ensures Apart(turn.pc, s)
  {
  }

  lemma OpeningsKept(y: State, t: Tid, s: Sid, turn: Turn)
    requires Openings(y) && Acceptor in y.threads
    requires t in y.threads && y.threads[t] != Idle && y.threads[t].s == s && s in y.sessions
    requires OpeningLocal(t, y.threads[t], y.sessions[s], turn) && ShapeLocal(t, y.threads[t], turn)
    requires y.threads[t].Accepting? ==> t == Acceptor
    ensures Openings(Apply(y, t, s, turn))
  {
    var y1 := Apply(y, t, s, turn);
    if IsOpening(y1.threads[Acceptor]) {
      var r := y1.threads[Acceptor].s;
      assert Pristine(y, r);
      assert ThreadApart(y, t, r);
      if t != Acceptor {
        ApartKept(t, y.threads[t], turn, r);
      }
      forall u ensures ThreadApart(y1, u, r) { assert ThreadApart(y, u, r); }
      assert Pristine(y1, r);
    }
    forall r ensures Tied(y1, r) { assert Tied(y, r); }
  }

  lemma AcceptOpenings(y: State, s: Sid)
    requires Openings(y) && Shaped(y) && y.threads[Acceptor] == Idle && s !in y.sessions
    requires forall o :: o in y.kernel ==> y.kernel[o].s in y.sessions
    requires forall o :: o in y.queue ==> y.queue[o].s in y.sessions
    ensures Openings(AcceptNew(y, s))
  {
    var y1 := AcceptNew(y, s);
    forall u ensures ThreadApart(y1, u, s) { assert ThreadOk(y, u); }
    assert Pristine(y1, s);
    forall r ensures Tied(y1, r) { assert Tied(y, r); }
  }

  lemma CompleteOpenings(y: State, o: OpId, ok: bool, data: seq<byte>)
    requires Openings(y) && o in y.kernel && y.kernel[o].s in y.sessions
    ensures Openings(CompleteStep(y, o, ok, data))
  {
    var y1 := CompleteStep(y, o, ok, data);
    if Acceptor in y1.threads && IsOpening(y1.threads[Acceptor]) {
      var r := y1.threads[Acceptor].s;
      forall u ensures ThreadApart(y1, u, r) { assert ThreadApart(y, u, r); }
      assert Pristine(y1, r);
    }
    forall r ensures Tied(y1, r) { assert Tied(y, r); }
  }

  lemma TakeOpenings(y: State, n: nat, o: OpId)
    requires Openings(y) && Worker(n) in y.threads && y.threads[Worker(n)] == Idle && o in y.queue && y.queue[o].s in y.sessions
    ensures Openings(TakeStep(y, n, o))
  {
    var y1 := TakeStep(y, n, o);
    if Acceptor in y1.threads && IsOpening(y1.threads[Acceptor]) {
      var r := y1.threads[Acceptor].s;
      forall u ensures ThreadApart(y1, u, r) { assert ThreadApart(y, u, r); }
      assert Pristine(y1, r);
    }
    forall r ensures Tied(y1, r) { assert Tied(y, r); }
  }

  /** What another session's job, or its own Connect, does to the player and the mail of a session in no room. */
  ghost predicate SparesOutsider(l: Lobby, job: Job, l1: Lobby, fx: seq<Effect>, s: Sid) {
    (job.s != s || job == Connect(s)) && (s in l.players ==> l.players[s].room.Null?) ==>
      && (s in l1.players ==> l1.players[s].room.Null?)
      && (if job == Connect(s) then fx == []
          else job.s != s ==> forall i :: 0 <= i < |fx| ==> fx[i].to != s)
  }

  lemma PopOpenings(y: State, y1: State, job: Job, fx: seq<Effect>)
    requires Openings(y) && Acceptor in y.threads && GameThread in y.threads && y.threads[GameThread] == Idle
    requires y.done < |y.log| && y.log[y.done] == job && job.s in y.sessions
    requires y1.threads == y.threads[GameThread := Gaming(job.s, GameRun(fx, job.Disconnect?))]
    requires y1.sessions == y.sessions[job.s := if job.Disconnect? then y.sessions[job.s].(ending := Processing) else y.sessions[job.s]]
    requires y1.kernel == y.kernel && y1.queue == y.queue && y1.log == y.log
    requires forall s :: SparesOutsider(y.lobby, job, y1.lobby, fx, s)
    ensures Openings(y1)
  {
    if IsOpening(y1.threads[Acceptor]) {
      var r := y1.threads[Acceptor].s;
      assert Pristine(y, r) && SparesOutsider(y.lobby, job, y1.lobby, fx, r);
      forall u ensures ThreadApart(y1, u, r) { assert ThreadApart(y, u, r); }
      assert Pristine(y1, r);
    }
    forall r ensures Tied(y1, r) { assert Tied(y, r); }
  }

  /** The operations and completions of a session: the port knows it, and its Connect is in the log. */
  lemma OperationsAreTied(y: State, s: Sid)
    requires Openings(y) && s in y.sessions
    requires (exists o :: o in y.kernel && y.kernel[o].s == s) || (exists o :: o in y.queue && y.queue[o].s == s)
    ensures y.sessions[s].associated
    ensures Acceptor in y.threads && IsOpening(y.threads[Acceptor]) ==> y.threads[Acceptor].s != s
  {
    assert Tied(y, s);
  }
}
