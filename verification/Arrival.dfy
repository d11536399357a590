/** From the lobby back to the clients: what the running server has sent is what its rooms are. */
module Arrival {
  import opened Bytes
  import opened Framing
  import opened Protocol
  import opened Lobby
  import opened LobbyInvariant
  import opened LobbySeparation
  import opened LobbyTheorems
  import opened LobbyCodec
  import opened LobbyWire
  import opened LobbyPosted
  import opened Session
  import opened Server
  import opened ServerShape
  import opened ServerSafe
  import opened ServerTheorems
  import opened ServerOutbox
  import opened EndToEnd

  lemma LettersOfMore(jobs: seq<Job>, envs: seq<Env>, job: Job, env: Env, s: Sid)
    requires |jobs| == |envs| && After(jobs, envs).Running? && Step(After(jobs, envs).lobby, job, env).Done?
    ensures LettersOf(jobs + [job], envs + [env], s) ==
            LettersOf(jobs, envs, s) + Letters(Step(After(jobs, envs).lobby, job, env).effects, s)
  {
    assert (jobs + [job])[..|jobs|] == jobs && (envs + [env])[..|jobs|] == envs;
  }

  /** What the jobs popped have told a session is what a run of them posts. */
  ghost predicate TellsTheRun(y: State, envs: seq<Env>, s: Sid, told: seq<Packet>) {
    LobbyRan(y, envs) && told == LettersOf(y.log[..y.done], envs, s)
  }

  lemma FrontAndOne(log: seq<Job>, log1: seq<Job>, done: nat)
    requires log <= log1 && done < |log|
    ensures done + 1 <= |log1| && log1[..done + 1] == log[..done] + [log[done]]
  {
  }

  /** With these jobs run and this job next. */
  ghost predicate TellsNext(jobs: seq<Job>, envs: seq<Env>, job: Job, env: Env, s: Sid, told: seq<Packet>, more: seq<Packet>)
    requires |jobs| == |envs|
  {
    && After(jobs, envs).Running? && Step(After(jobs, envs).lobby, job, env).Done?
    && told == LettersOf(jobs, envs, s) && more == Letters(Step(After(jobs, envs).lobby, job, env).effects, s)
  }

  lemma TellsMore(jobs: seq<Job>, envs: seq<Env>, job: Job, env: Env, s: Sid, told: seq<Packet>, more: seq<Packet>)
    requires |jobs| == |envs| && TellsNext(jobs, envs, job, env, s, told, more)
    ensures told + more == LettersOf(jobs + [job], envs + [env], s)
  {
    LettersOfMore(jobs, envs, job, env, s);
  }

  lemma PopTellsNext(y: State, a: Action, envs: seq<Env>, s: Sid, told: seq<Packet>)
    requires TellsTheRun(y, envs, s, told) && a.Pop? && y.done < |y.log| && Step(y.lobby, y.log[y.done], a.env).Done?
    ensures |envs| == y.done && TellsNext(y.log[..y.done], envs, y.log[y.done], a.env, s, told, TellsTo(y, a, s))
  {
  }

  lemma PopTellsTheRun(log: seq<Job>, log1: seq<Job>, done: nat, envs: seq<Env>, env: Env, s: Sid, told: seq<Packet>, more: seq<Packet>)
    requires log <= log1 && done < |log| && |envs| == done && TellsNext(log[..done], envs, log[done], env, s, told, more)
    ensures told + more == LettersOf(log1[..done + 1], envs + [env], s)
  {
    TellsMore(log[..done], envs, log[done], env, s, told, more);
    FrontAndOne(log, log1, done);
  }

  lemma OthersTellTheRun(y: State, y1: State, a: Action, envs: seq<Env>, s: Sid, told: seq<Packet>)
    requires TellsTheRun(y, envs, s, told) && y.log <= y1.log && y1.done == y.done && !a.Pop?
    ensures |envs| == y.done && y1.done <= |y1.log|
    ensures told + TellsTo(y, a, s) == LettersOf(y1.log[..y1.done], envs + [], s)
  {
    SameFront(y.log, y1.log, y.done);
    assert told + [] == told && envs + [] == envs;
  }

  lemma SameFront(log: seq<Job>, log1: seq<Job>, done: nat)
    requires log <= log1 && done <= |log|
    ensures log1[..done] == log[..done]
  {
  }

  lemma PopTellsOn(y: State, y1: State, a: Action, envs: seq<Env>, s: Sid, told: seq<Packet>)
    requires a.Pop? && y.done < |y.log| && Step(y.lobby, y.log[y.done], a.env).Done?
    requires TellsTheRun(y, envs, s, told) && LobbyRan(y1, envs + [a.env]) && y.log <= y1.log && y1.done == y.done + 1
    ensures TellsTheRun(y1, envs + [a.env], s, told + TellsTo(y, a, s))
  {
    PopTellsNext(y, a, envs, s, told);
    PopTellsTheRun(y.log, y1.log, y.done, envs, a.env, s, told, TellsTo(y, a, s));
  }

  lemma {:induction false} ToldIsPosted(ys: seq<State>, actions: seq<Action>, i: nat, s: Sid)
    requires IsRun(ys, actions) && i < |ys|
    ensures TellsTheRun(ys[i], Envs(actions[..i]), s, Told(ys, actions, i, s))
  {
    LobbyIsItsRun(ys, actions, i);
    if i > 0 {
      ToldIsPosted(ys, actions, i - 1, s);
      EnvsStep(actions, i - 1);
      StepLog(ys[i - 1], actions[i - 1]);
      var envs, told := Envs(actions[..i - 1]), Told(ys, actions, i - 1, s);
      if actions[i - 1].Pop? {
        PopTellsOn(ys[i - 1], ys[i], actions[i - 1], envs, s, told);
      } else {
        OthersTellTheRun(ys[i - 1], ys[i], actions[i - 1], envs, s, told);
      }
    }
  }

  /** The session is open, nothing told to it is still in the game thread's hands, and no send to it has failed. */
  ghost predicate IsServed(y: State, s: Sid) {
    && s in y.sessions && y.sessions[s].state == Connected
    && InHand(PcOf(y, GameThread), s) == [] && !IsLosing(PcOf(y, GameThread), s)
  }

  /** Whoever is served has been sent all that was posted. */
  lemma ServedIsPosted(ys: seq<State>, actions: seq<Action>, i: nat, s: Sid)
    requires IsRun(ys, actions) && i < |ys| && IsServed(ys[i], s)
    ensures LobbyRan(ys[i], Envs(actions[..i]))
    ensures ReadNext(NotARoom, Outgoing(ys, actions, i, s)) == ReadOf(ys[i].log[..ys[i].done], Envs(actions[..i]))(s)
  {
    ToldIsPosted(ys, actions, i, s);
    OnlyClosedSessionsLose(ys, actions, i, s);
    assert Outgoing(ys, actions, i, s) + [] == Outgoing(ys, actions, i, s);
  }

  /** Everyone served in a game room has been sent it as it is. */
  ghost predicate ServedSee(ys: seq<State>, actions: seq<Action>, i: nat)
    requires |ys| == |actions| + 1 && i < |ys|
  {
    forall k, m :: k in ys[i].lobby.rooms && ys[i].lobby.rooms[k].IsGame() && m in ys[i].lobby.rooms[k].members && IsServed(ys[i], m) ==>
      SeesRoom(ys[i].lobby, k, ReadNext(NotARoom, Outgoing(ys, actions, i, m)))
  }

  lemma SeenIsServed(ys: seq<State>, actions: seq<Action>, i: nat)
    requires IsRun(ys, actions) && i < |ys|
    requires LobbyRan(ys[i], Envs(actions[..i])) && AllSee(ys[i].lobby, ReadOf(ys[i].log[..ys[i].done], Envs(actions[..i])))
    ensures ServedSee(ys, actions, i)
  {
    forall k, m | k in ys[i].lobby.rooms && ys[i].lobby.rooms[k].IsGame() && m in ys[i].lobby.rooms[k].members && IsServed(ys[i], m)
      ensures SeesRoom(ys[i].lobby, k, ReadNext(NotARoom, Outgoing(ys, actions, i, m)))
    {
      ServedIsPosted(ys, actions, i, m);
    }
  }

  /** With polite clients, as long as each job leaves room for the names of the game rooms it tells: in every state
      of the running server what a member of a game room reads off the last room state sent to it is its room as
      it is, if its session is open, the game thread has nothing for it in hand and no send to it has failed. */
  lemma ServerRoomsArrive(ys: seq<State>, actions: seq<Action>, i: nat)
    requires IsRun(ys, actions) && i < |ys| && CountersFit(ys[i].lobby)
    requires PopsSatisfy(ys, actions, i, (l: Lobby, job: Job, env: Env) => Polite(l, job))
    requires PopsSatisfy(ys, actions, i, (l: Lobby, job: Job, env: Env) => JobFits(l, job, env))
    ensures ServedSee(ys, actions, i)
  {
    LobbyIsItsRun(ys, actions, i);
    var jobs, envs := ys[i].log[..ys[i].done], Envs(actions[..i]);
    ThroughoutTheRun(ys, actions, i, (l: Lobby, job: Job, env: Env) => Polite(l, job));
    ThroughoutTheRun(ys, actions, i, (l: Lobby, job: Job, env: Env) => PickOk(l, env));
    ThroughoutTheRun(ys, actions, i, (l: Lobby, job: Job, env: Env) => JobFits(l, job, env));
    forall j | 0 <= j < |jobs|
      ensures ToldFitAt(jobs, envs, j)
    {
    }
    FittingRunArrives(jobs, envs);
    SeenIsServed(ys, actions, i);
  }

  /** So it is when clients have names of at most 2035 bytes. */
  lemma ShortNamesArrive(ys: seq<State>, actions: seq<Action>, i: nat)
    requires IsRun(ys, actions) && i < |ys| && CountersFit(ys[i].lobby) && ys[i].done <= |ys[i].log|
    requires PopsSatisfy(ys, actions, i, (l: Lobby, job: Job, env: Env) => Polite(l, job))
    requires forall j :: 0 <= j < ys[i].done ==> NamesShortly(ys[i].log[j], SHORT_NAME)
    ensures ServedSee(ys, actions, i)
  {
    ThroughoutTheRun(ys, actions, i, (l: Lobby, job: Job, env: Env) => Polite(l, job));
    ThroughoutTheRun(ys, actions, i, (l: Lobby, job: Job, env: Env) => PickOk(l, env));
    RoomsArriveAsTheyAre(ys[i].log[..ys[i].done], Envs(actions[..i]));
    SeenIsServed(ys, actions, i);
  }

  // ---- chat ---------------------------------------------------------------------------------------

  ghost predicate ChatsNoMatch(y: State) {
    NoChatToPlaying(y.lobby, EffectsOf(PcOf(y, GameThread)))
  }

  lemma FewerChats(l: Lobby, fx: seq<Effect>, fx1: seq<Effect>)
    requires NoChatToPlaying(l, fx) && (fx1 == fx || fx1 == [] || (fx != [] && fx1 == fx[1..]))
    ensures NoChatToPlaying(l, fx1)
  {
  }

  lemma GameGoesOn(y: State, fails: bool)
    requires Safe(y) && CanRun(y, GameThread)
    ensures var fx, fx1 := EffectsOf(y.threads[GameThread]), EffectsOf(TurnAt(y, GameThread, fails).pc);
            fx1 == fx || fx1 == [] || (fx != [] && fx1 == fx[1..])
  {
    TurnsOf(y, GameThread, fails);
  }

  lemma StepChatsNoMatch(y: State, a: Action)
    requires Safe(y) && Enabled(y, a) && ChatsNoMatch(y)
    requires a.Pop? ==> Separated(y.lobby)
    ensures ChatsNoMatch(Next(y, a))
  {
    if a.Run? && a.t == GameThread {
      GameGoesOn(y, a.fails);
      FewerChats(y.lobby, EffectsOf(y.threads[GameThread]), EffectsOf(TurnAt(y, GameThread, a.fails).pc));
    } else if a.Pop? {
      NoChatReachesAMatch(y.lobby, y.log[y.done], a.env);
    } else {
      assert PcOf(Next(y, a), GameThread) == PcOf(y, GameThread);
    }
  }

  /** With polite clients, in every state: no chat the game thread still has to carry out is for a player in a match. */
  lemma {:induction false} ServerChatsNoMatch(ys: seq<State>, actions: seq<Action>, i: nat)
    requires IsRun(ys, actions) && i < |ys|
    requires PopsSatisfy(ys, actions, i, (l: Lobby, job: Job, env: Env) => Polite(l, job))
    ensures ChatsNoMatch(ys[i])
  {
    if i > 0 {
      ServerChatsNoMatch(ys, actions, i - 1);
      ServerKeepsGood(ys, actions, i - 1);
      RunIsSafe(ys, actions, i - 1);
      StepChatsNoMatch(ys[i - 1], actions[i - 1]);
    }
  }
}
