/**
 From the bytes of a socket to the lobby: the packets handed to the game thread are the parse of what was
 received, the game thread works through them in that order, and so everything proved of runs of the
 lobby holds of the lobby of the running server.
 */
module EndToEnd {
  import opened Bytes
  import opened Framing
  import opened Protocol
  import opened Lobby
  import opened LobbyInvariant
  import opened LobbySeparation
  import opened LobbyTheorems
  import opened LobbyWire
  import opened Session
  import opened Server
  import opened ServerShape
  import opened ServerBaton
  import opened ServerOrder
  import opened ServerTurns
  import opened ServerSafe
  import opened ServerTheorems
  import opened ServerDrain
  import opened ServerFair

  // ---- bytes to packets ---------------------------------------------------------------------------

  ghost function WireOf(y: State, s: Sid): seq<byte> {
    if s in y.sessions then y.sessions[s].wire else []
  }

  ghost function Arrives(y: State, a: Action, s: Sid): seq<byte> {
    if a.Complete? && a.o in y.kernel && y.kernel[a.o] == Op(s, true) then a.data else []
  }

  /** The bytes the kernel has delivered to s, receive by receive, by the i-th state of a run. */
  ghost function Received(ys: seq<State>, actions: seq<Action>, i: nat, s: Sid): seq<byte>
    requires i <= |actions| < |ys|
  {
    if i == 0 then []
    else
      Received(ys, actions, i - 1, s) + Arrives(ys[i - 1], actions[i - 1], s)
  }

  lemma StepReceives(y: State, a: Action, s: Sid)
    requires Safe(y) && Enabled(y, a) && s in Next(y, a).sessions
    ensures Next(y, a).sessions[s].wire ==
            (if s in y.sessions then y.sessions[s].wire else []) +
            if a.Complete? && y.kernel[a.o] == Op(s, true) then a.data else []
  {
    if a.Run? {
      TurnsOf(y, a.t, a.fails);
    }
  }

  /** What a step adds to the bytes of a session is what a completed receive brings. */
  lemma StepArrives(y: State, a: Action, s: Sid)
    requires Safe(y) && Enabled(y, a)
    ensures WireOf(Next(y, a), s) == WireOf(y, s) + Arrives(y, a, s)
  {
    if s in Next(y, a).sessions {
      StepReceives(y, a, s);
    } else {
      StepKeepsSessions(y, a, s);
    }
  }

  lemma RunArrives(ys: seq<State>, actions: seq<Action>, k: nat, s: Sid)
    requires IsRun(ys, actions) && k < |actions|
    ensures WireOf(ys[k + 1], s) == WireOf(ys[k], s) + Arrives(ys[k], actions[k], s)
  {
    RunIsSafe(ys, actions, k);
    StepArrives(ys[k], actions[k], s);
  }

  lemma {:induction false} WireIsReceived(ys: seq<State>, actions: seq<Action>, i: nat, s: Sid)
    requires IsRun(ys, actions) && i < |ys|
    ensures Received(ys, actions, i, s) == WireOf(ys[i], s)
  {
    if i > 0 {
      WireIsReceived(ys, actions, i - 1, s);
      RunArrives(ys, actions, i - 1, s);
    }
  }

  lemma StepKeepsSessions(y: State, a: Action, s: Sid)
    requires Safe(y) && Enabled(y, a) && s !in Next(y, a).sessions
    ensures s !in y.sessions && (a.Complete? ==> y.kernel[a.o].s != s)
  {
  }

  /** Between batches the packets taken are the whole parse of what was fed. */
  lemma TakenIsParse(d: Sess)
    requires Stream(d, []) && Waiting(d.ring)
    ensures Parse(d.fed) == Parsed(d.taken, d.ring, false)
  {
    assert d.ring[0..] == d.ring;
    ParseOfPrintAll(d.taken, d.ring);
    ParseNothing(d.ring);
    assert d.taken + [] == d.taken;
  }

  /** At any time they are its beginning. */
  lemma TakenIsPrefix(d: Sess, mid: seq<Packet>)
    requires Stream(d, mid) && d.fed <= d.wire
    ensures d.taken <= Parse(d.wire).packets
  {
    var more := d.ring[|BodyOf(mid)|..] + d.wire[|d.fed|..];
    assert d.wire == d.fed + d.wire[|d.fed|..];
    PlusAssociates(PrintAll(d.taken), d.ring[|BodyOf(mid)|..], d.wire[|d.fed|..]);
    ParseOfPrintAll(d.taken, more);
  }

  lemma {:induction false} SubsequencePrefix(a: seq<Packet>, b: seq<Packet>, c: seq<Packet>)
    requires Subsequence(a, b) && b <= c
    ensures Subsequence(a, c)
    decreases |c|
  {
    if |b| < |c| {
      var init := c[..|c| - 1];
      assert b <= init;
      SubsequencePrefix(a, b, init);
      SubsequenceMore(a, init, c[|c| - 1]);
      assert init + [c[|c| - 1]] == c;
    } else {
      assert b == c;
    }
  }

  /** The holder of the receive path, if a thread, is not in the middle of a batch. */
  ghost predicate BetweenBatches(y: State, s: Sid) {
    && s in y.sessions
    && var d := y.sessions[s];
    d.baton.InThread? ==> Holder(y, d).Accepting? || Holder(y, d).Posting? || Holder(y, d).Receiving?
  }

  lemma StreamAt(y: State, s: Sid)
    requires Safe(y) && s in y.sessions
    ensures var d := y.sessions[s]; Stream(d, MidPacket(Holder(y, d))) && d.fed <= d.wire
    ensures SessionHanded(y, s)
  {
    assert SessionOrder(y, s) && SessionBaton(y, s);
  }

  lemma BetweenAt(y: State, s: Sid)
    requires Safe(y) && BetweenBatches(y, s) && y.sessions[s].state == Connected
    ensures var d := y.sessions[s];
            && Stream(d, []) && Waiting(d.ring) && DecidedIn(y, d) == d.taken
            && (d.wire == d.fed || (d.wire == d.fed + d.buffer && (d.baton.InQueue? || Holder(y, d).Receiving?)))
  {
    assert SessionOrder(y, s) && SessionBaton(y, s);
  }

  /** The order theorem. Over a whole run, under any interleaving, the packets pushed for a session are an
      in-order subsequence of the parse of the bytes received for it. While it is open and no worker is in
      the middle of a batch they are exactly the parse of the bytes fed to the ring; and these are all the
      bytes received when its next receive is with the kernel. */
  lemma PacketsAreTheParse(ys: seq<State>, actions: seq<Action>, i: nat, s: Sid)
    requires IsRun(ys, actions) && i < |ys| && s in ys[i].sessions
    ensures Subsequence(Handed(ys[i].log, s), Parse(Received(ys, actions, i, s)).packets)
    ensures var d := ys[i].sessions[s];
            d.state == Connected && BetweenBatches(ys[i], s) ==>
              && Parse(d.fed) == Parsed(Handed(ys[i].log, s), d.ring, false)
              && (Received(ys, actions, i, s) == d.fed || Received(ys, actions, i, s) == d.fed + d.buffer)
    ensures ys[i].sessions[s].state == Connected && (exists o :: o in ys[i].kernel && ys[i].kernel[o] == Op(s, true)) ==>
              Parse(Received(ys, actions, i, s)) == Parsed(Handed(ys[i].log, s), ys[i].sessions[s].ring, false)
  {
    RunIsSafe(ys, actions, i);
    WireIsReceived(ys, actions, i, s);
    var y := ys[i];
    var d := y.sessions[s];
    StreamAt(y, s);
    TakenIsPrefix(d, MidPacket(Holder(y, d)));
    assert DecidedIn(y, d) <= d.taken;
    SubsequencePrefix(Handed(y.log, s), DecidedIn(y, d), Parse(d.wire).packets);
    if d.state == Connected && BetweenBatches(y, s) {
      BetweenAt(y, s);
      TakenIsParse(d);
    }
    if o :| o in y.kernel && y.kernel[o] == Op(s, true) {
      assert KernelBaton(y, o);
    }
  }

  // ---- packets to the lobby -----------------------------------------------------------------------

  /** What the environment decided at each pop so far. */
  ghost function Envs(actions: seq<Action>): seq<Env> {
    if actions == [] then []
    else
      var a := actions[|actions| - 1];
      Envs(actions[..|actions| - 1]) + if a.Pop? then [a.env] else []
  }

  lemma EnvsStep(actions: seq<Action>, i: nat)
    requires i < |actions|
    ensures Envs(actions[..i + 1]) == Envs(actions[..i]) + if actions[i].Pop? then [actions[i].env] else []
  {
    assert actions[..i + 1][..i] == actions[..i];
  }

  lemma StepLog(y: State, a: Action)
    requires Enabled(y, a) && y.done <= |y.log|
    ensures var y1 := Next(y, a);
            && y.log <= y1.log
            && y1.done == y.done + (if a.Pop? then 1 else 0)
            && (if a.Pop? then Step(y.lobby, y.log[y.done], a.env).Done? && y1.lobby == Step(y.lobby, y.log[y.done], a.env).lobby
                else y1.lobby == y.lobby)
  {
  }

  ghost predicate LobbyRan(y: State, envs: seq<Env>) {
    && |envs| == y.done <= |y.log|
    && After(y.log[..y.done], envs).Running?
    && After(y.log[..y.done], envs).lobby == y.lobby
  }

  /** The lobby is what the jobs popped, in the order pushed, make of the first lobby. */
  lemma {:induction false} LobbyIsItsRun(ys: seq<State>, actions: seq<Action>, i: nat)
    requires IsRun(ys, actions) && i < |ys|
    ensures LobbyRan(ys[i], Envs(actions[..i]))
  {
    if i > 0 {
      LobbyIsItsRun(ys, actions, i - 1);
      var y, y1, a := ys[i - 1], ys[i], actions[i - 1];
      EnvsStep(actions, i - 1);
      StepLog(y, a);
      AfterStep(y, y1, a, Envs(actions[..i - 1]));
    }
  }

  lemma AfterStep(y: State, y1: State, a: Action, envs: seq<Env>)
    requires LobbyRan(y, envs) && y.log <= y1.log && y1.done == y.done + (if a.Pop? then 1 else 0)
    requires a.Pop? ==>
               && y.done < |y.log| && Step(y.lobby, y.log[y.done], a.env).Done?
               && y1.lobby == Step(y.lobby, y.log[y.done], a.env).lobby
    requires !a.Pop? ==> y1.lobby == y.lobby
    ensures LobbyRan(y1, envs + if a.Pop? then [a.env] else [])
  {
    var envs1 := envs + if a.Pop? then [a.env] else [];
    if a.Pop? {
      assert y1.log[..y1.done][..y.done] == y.log[..y.done] && envs1[..y.done] == envs;
    } else {
      assert y1.log[..y1.done] == y.log[..y.done] && envs1 == envs;
    }
  }

  /** P held of the lobby, the job and the environment at every pop before the i-th state. */
  ghost predicate PopsSatisfy(ys: seq<State>, actions: seq<Action>, i: nat, P: (Lobby, Job, Env) -> bool)
    requires IsRun(ys, actions) && i < |ys|
  {
    forall k :: 0 <= k < i && actions[k].Pop? ==> P(ys[k].lobby, ys[k].log[ys[k].done], actions[k].env)
  }

  lemma {:induction false} ThroughoutTheRun(ys: seq<State>, actions: seq<Action>, i: nat, P: (Lobby, Job, Env) -> bool)
    requires IsRun(ys, actions) && i < |ys| && PopsSatisfy(ys, actions, i, P)
    ensures LobbyRan(ys[i], Envs(actions[..i])) && Throughout(ys[i].log[..ys[i].done], Envs(actions[..i]), P)
  {
    LobbyIsItsRun(ys, actions, i);
    if i > 0 {
      ThroughoutTheRun(ys, actions, i - 1, P);
      var y, y1, a := ys[i - 1], ys[i], actions[i - 1];
      EnvsStep(actions, i - 1);
      StepLog(y, a);
      ThroughoutStep(y, y1, a, Envs(actions[..i - 1]), P);
    }
  }

  lemma ThroughoutStep(y: State, y1: State, a: Action, envs: seq<Env>, P: (Lobby, Job, Env) -> bool)
    requires LobbyRan(y, envs) && Throughout(y.log[..y.done], envs, P)
    requires y.log <= y1.log && y1.done == (if a.Pop? then y.done + 1 else y.done) && y1.done <= |y.log|
    requires a.Pop? ==> P(y.lobby, y.log[y.done], a.env)
    ensures Throughout(y1.log[..y1.done], envs + if a.Pop? then [a.env] else [], P)
  {
    if a.Pop? {
      ThroughoutMore(y.log[..y.done], envs, y.log[y.done], a.env, P);
      assert y1.log[..y1.done] == y.log[..y.done] + [y.log[y.done]];
    } else {
      assert y1.log[..y1.done] == y.log[..y.done] && envs + [] == envs;
    }
  }

  lemma ThroughoutMore(jobs: seq<Job>, envs: seq<Env>, job: Job, env: Env, P: (Lobby, Job, Env) -> bool)
    requires |jobs| == |envs| && Throughout(jobs, envs, P)
    requires After(jobs, envs).Running? ==> P(After(jobs, envs).lobby, job, env)
    ensures Throughout(jobs + [job], envs + [env], P)
  {
    var jobs1, envs1 := jobs + [job], envs + [env];
    forall k | 0 <= k < |jobs1| && After(jobs1[..k], envs1[..k]).Running?
      ensures P(After(jobs1[..k], envs1[..k]).lobby, jobs1[k], envs1[k])
    {
      if k < |jobs| {
        assert jobs1[..k] == jobs[..k] && envs1[..k] == envs[..k];
      } else {
        assert jobs1[..k] == jobs && envs1[..k] == envs;
      }
    }
  }

  /** Whatever clients send: the lobby of a running server keeps its invariants. */
  lemma ServerKeepsInv(ys: seq<State>, actions: seq<Action>, i: nat)
    requires IsRun(ys, actions) && i < |ys|
    ensures Inv(ys[i].lobby)
  {
    RunIsSafe(ys, actions, i);
  }

  /** With polite clients: rooms within capacity, matches isolated and eagerly started, and everyone in a game
      room last handed the SC_ROOM_STATE of that room as it is. */
  lemma ServerKeepsGood(ys: seq<State>, actions: seq<Action>, i: nat)
    requires IsRun(ys, actions) && i < |ys|
    requires PopsSatisfy(ys, actions, i, (l: Lobby, job: Job, env: Env) => Polite(l, job))
    ensures LobbyRan(ys[i], Envs(actions[..i]))
    ensures var views := After(ys[i].log[..ys[i].done], Envs(actions[..i])).views; Good(ys[i].lobby, views) && ViewsAreTrue(ys[i].lobby, views)
  {
    ThroughoutTheRun(ys, actions, i, (l: Lobby, job: Job, env: Env) => Polite(l, job));
    ThroughoutTheRun(ys, actions, i, (l: Lobby, job: Job, env: Env) => PickOk(l, env));
    RunKeepsGood(ys[i].log[..ys[i].done], Envs(actions[..i]));
  }

  lemma {:induction false} HandedHas(log: seq<Job>, i: nat)
    requires i < |log| && log[i].Deliver?
    ensures log[i].packet in Handed(log, log[i].s)
    decreases |log|
  {
    if i < |log| - 1 {
      HandedHas(log[..|log| - 1], i);
    }
  }

  lemma {:induction false} SubsequenceHas(a: seq<Packet>, b: seq<Packet>, p: Packet)
    requires Subsequence(a, b) && p in a
    ensures p in b
    decreases |b|
  {
    if Subsequence(a, b[..|b| - 1]) {
      SubsequenceHas(a, b[..|b| - 1], p);
    } else if p != a[|a| - 1] {
      SubsequenceHas(a[..|a| - 1], b[..|b| - 1], p);
    }
  }

  /** No packet reaches the game thread that is not of legal size. */
  lemma LogIsLegal(y: State, i: nat)
    requires Safe(y) && i < |y.log|
    ensures IsLegal(y.log[i])
  {
    if y.log[i].Deliver? {
      var s, p := y.log[i].s, y.log[i].packet;
      StreamAt(y, s);
      HandedHas(y.log, i);
      SubsequenceHas(Handed(y.log, s), DecidedIn(y, y.sessions[s]), p);
    }
  }

  /** With modest clients the game thread is never stopped by a dangling room: any job can be popped. */
  lemma ServerNeverDangles(ys: seq<State>, actions: seq<Action>, i: nat, env: Env)
    requires IsRun(ys, actions) && i < |ys|
    requires PopsSatisfy(ys, actions, i, (l: Lobby, job: Job, e: Env) => Modest(l, job))
    requires GameIsFree(ys[i]) && PickOk(ys[i].lobby, env) && Modest(ys[i].lobby, NextJobOf(ys[i]))
    ensures Enabled(ys[i], Pop(env))
  {
    ThroughoutTheRun(ys, actions, i, (l: Lobby, job: Job, e: Env) => Modest(l, job));
    ThroughoutTheRun(ys, actions, i, (l: Lobby, job: Job, e: Env) => PickOk(l, e));
    RunNeverDangles(ys[i].log[..ys[i].done], Envs(actions[..i]));
    RunIsSafe(ys, actions, i);
    RoomsStayBelow(ys[i].lobby, NextJobOf(ys[i]), env);
    NothingIsStuck(ys, actions, i);
  }

  lemma SomePick(l: Lobby) returns (env: Env)
    ensures PickOk(l, env)
  {
    if exists k :: k in l.rooms && l.rooms[k].IsOpen() {
      var k :| k in l.rooms && l.rooms[k].IsOpen();
      env := Env(To(k), 0);
    } else {
      env := Env(Null, 0);
    }
  }

  /** With modest clients the game thread is never blocked; so a server at rest leaks nothing. */
  lemma ModestServerComesClean(ys: seq<State>, actions: seq<Action>, i: nat, n: nat)
    requires IsRun(ys, actions) && i < |ys| && AtRest(ys[i]) && Worker(n) in ys[i].threads
    requires PopsSatisfy(ys, actions, i, (l: Lobby, job: Job, e: Env) => Modest(l, job))
    requires GameIsFree(ys[i]) ==> Modest(ys[i].lobby, NextJobOf(ys[i]))
    ensures Quiescent(ys[i]) && IsClean(ys[i])
  {
    if GameIsFree(ys[i]) {
      var env := SomePick(ys[i].lobby);
      ServerNeverDangles(ys, actions, i, env);
    }
    RunIsSafe(ys, actions, i);
    RestIsQuiescent(ys[i], n);
    RestIsClean(ys, actions, i, n);
  }

  /** Clients are modest in a run that never ends: whatever job is next keeps to the numbers below the next automatic one. */
  ghost predicate AlwaysModest(ys: nat -> State) {
    forall i: nat :: GameIsFree(ys(i)) ==> Modest(ys(i).lobby, NextJobOf(ys(i)))
  }

  lemma PrefixIsRun(ys: nat -> State, actions: nat -> Action, n: nat) returns (zs: seq<State>, acts: seq<Action>)
    requires IsEndless(ys, actions) && Init(ys(0)) && AlwaysModest(ys)
    ensures IsRun(zs, acts) && |acts| == n && zs[n] == ys(n)
    ensures PopsSatisfy(zs, acts, n, (l: Lobby, job: Job, e: Env) => Modest(l, job))
  {
    zs, acts := seq(n + 1, (k: nat) => ys(k)), seq(n, (k: nat) => actions(k));
    forall k | 0 <= k < n
      ensures Enabled(zs[k], acts[k]) && zs[k + 1] == Next(zs[k], acts[k])
      ensures acts[k].Pop? ==> Modest(zs[k].lobby, zs[k].log[zs[k].done])
    {
      assert zs[k] == ys(k) && zs[k + 1] == ys(k + 1) && acts[k] == actions(k);
      assert acts[k].Pop? ==> GameIsFree(ys(k));
    }
  }

  lemma NeverBlocked(ys: nat -> State, actions: nat -> Action, n: nat)
    requires IsEndless(ys, actions) && Init(ys(0)) && AlwaysModest(ys)
    ensures !IsBlocked(ys(n))
  {
    if GameIsFree(ys(n)) {
      var zs, acts := PrefixIsRun(ys, actions, n);
      var env := SomePick(ys(n).lobby);
      ServerNeverDangles(zs, acts, n, env);
    }
  }

  /** Liveness: with modest clients and a fair scheduler every session that is no longer open is deleted in the
      end, whatever else the server is doing. */
  lemma ModestServerDeletes(ys: nat -> State, actions: nat -> Action, i: nat, s: Sid) returns (j: nat)
    requires IsEndless(ys, actions) && Init(ys(0)) && IsFair(ys, actions) && AlwaysModest(ys)
    requires s in ys(i).sessions && ys(i).sessions[s].state != Connected
    ensures j >= i && s in ys(j).sessions && ys(j).sessions[s].deletions == 1
  {
    InitIsSafe(ys(0));
    j := ClosedIsDeleted(ys, actions, i, s);
    NeverBlocked(ys, actions, j);
  }

  /** The packets of s the game thread has worked through are the first of those pushed for it. */
  lemma {:induction false} PoppedInOrder(log: seq<Job>, done: nat, s: Sid)
    requires done <= |log|
    ensures Handed(log[..done], s) <= Handed(log, s)
    decreases |log|
  {
    if done < |log| {
      var n := |log| - 1;
      PoppedInOrder(log[..n], done, s);
      assert log[..n][..done] == log[..done];
    } else {
      assert log[..done] == log;
    }
  }
}
