/**
 What clients are really sent. SendPacket posts nothing larger than a packet, so a room state whose members
 have long names is dropped; here is exactly when everyone in a game room has been posted the room as it is.
 */
module LobbyPosted {
  import opened Bytes
  import opened Framing
  import opened Protocol
  import opened Lobby
  import opened LobbyInvariant
  import opened LobbySeparation
  import opened LobbyTheorems
  import opened LobbyLimits
  import opened ChatCodec
  import opened LobbyCodec
  import opened LobbyWire

  /** What an effect posts to s, as long as its session takes it. */
  function Letter(e: Effect, s: Sid): seq<Packet> {
    if e.Send? && e.to == s && Wire(e.msg).Valid() then [Wire(e.msg)] else []
  }

  function Letters(fx: seq<Effect>, s: Sid): seq<Packet> {
    if fx == [] then [] else Letters(fx[..|fx| - 1], s) + Letter(fx[|fx| - 1], s)
  }

  /** What a client that last read r reads off the last room state of these packets. */
  function ReadNext(r: ReadRoom, ps: seq<Packet>): ReadRoom {
    if ps == [] then r
    else
      var p := ps[|ps| - 1];
      if p.id == SC_ROOM_STATE then ReadRoomState(p.body) else ReadNext(r, ps[..|ps| - 1])
  }

  function ReadAfter(read: Sid -> ReadRoom, fx: seq<Effect>): Sid -> ReadRoom {
    (m: Sid) => ReadNext(read(m), Letters(fx, m))
  }

  /** What was read is the number, the capacity and the members of room k as they are. */
  ghost predicate SeesRoom(l: Lobby, k: int, r: ReadRoom) {
    r.ReadRoom? && Depicts(l, k, r.view)
  }

  lemma SeesTheView(l: Lobby, k: int, r: ReadRoom)
    requires Linked(l) && k in l.rooms
    ensures SeesRoom(l, k, r) <==> r == ReadRoom(View(l, k))
  {
    if r.ReadRoom? {
      DepictsIsView(l, k, r.view);
    }
  }

  /** Everyone in a game room last read that room as it is now. */
  ghost predicate AllSee(l: Lobby, read: Sid -> ReadRoom) {
    forall k, m :: k in l.rooms && l.rooms[k].IsGame() && m in l.rooms[k].members ==> SeesRoom(l, k, read(m))
  }

  /** What was read came in packets. */
  ghost predicate CameInPackets(read: Sid -> ReadRoom) {
    forall m: Sid :: read(m).ReadRoom? ==> |RoomStateBody(read(m).view)| <= MAX_PACKET_SIZE - HEADER_SIZE
  }

  ghost predicate IsTold(fx: seq<Effect>, m: Sid) {
    exists i :: 0 <= i < |fx| && fx[i].Send? && fx[i].to == m && fx[i].msg.RoomState?
  }

  /** Each game room that a job tells leaves room for its members' names. */
  ghost predicate ToldFit(l: Lobby, fx: seq<Effect>) {
    forall k, m :: k in l.rooms && l.rooms[k].IsGame() && m in l.rooms[k].members && IsTold(fx, m) ==>
      StateSize(l, l.rooms[k].members) <= MAX_PACKET_SIZE - HEADER_SIZE
  }

  // ---- reading packet by packet -------------------------------------------------------------------

  lemma {:induction false} ReadAppend(r: ReadRoom, a: seq<Packet>, b: seq<Packet>)
    ensures ReadNext(r, a + b) == ReadNext(ReadNext(r, a), b)
  {
    if b == [] {
      assert a + b == a;
    } else {
      ReadAppend(r, a, b[..|b| - 1]);
      assert (a + b)[..|a + b| - 1] == a + b[..|b| - 1];
    }
  }

  lemma {:induction false} LettersAreValid(fx: seq<Effect>, s: Sid)
    ensures AllValid(Letters(fx, s))
  {
    if fx != [] {
      LettersAreValid(fx[..|fx| - 1], s);
    }
  }

  /** Nothing read off a valid packet is larger than one. */
  lemma {:induction false} ReadIsSmall(r: ReadRoom, ps: seq<Packet>)
    requires AllValid(ps) && (r.ReadRoom? ==> |RoomStateBody(r.view)| <= MAX_PACKET_SIZE - HEADER_SIZE)
    ensures var n := ReadNext(r, ps); n.ReadRoom? ==> |RoomStateBody(n.view)| <= MAX_PACKET_SIZE - HEADER_SIZE
  {
    if ps != [] {
      var p := ps[|ps| - 1];
      if p.id == SC_ROOM_STATE {
        if ReadRoomState(p.body).ReadRoom? {
          ReadRoomStateLength(p.body);
        }
      } else {
        ReadIsSmall(r, ps[..|ps| - 1]);
      }
    }
  }

  lemma StillInPackets(read: Sid -> ReadRoom, fx: seq<Effect>)
    requires CameInPackets(read)
    ensures CameInPackets(ReadAfter(read, fx))
  {
    forall m: Sid
      ensures var n := ReadAfter(read, fx)(m); n.ReadRoom? ==> |RoomStateBody(n.view)| <= MAX_PACKET_SIZE - HEADER_SIZE
    {
      LettersAreValid(fx, m);
      ReadIsSmall(read(m), Letters(fx, m));
    }
  }

  /** The room state is posted and says what it should. */
  predicate ReadsBack(v: RoomView) {
    Wire(RoomState(v)).Valid() && ReadRoomState(Wire(RoomState(v)).body) == ReadRoom(v)
  }

  lemma ReadLetter(r: ReadRoom, e: Effect, m: Sid)
    ensures ReadNext(r, Letter(e, m)) ==
            if e.Send? && e.to == m && e.msg.RoomState? && Wire(e.msg).Valid() then ReadRoomState(Wire(e.msg).body) else r
  {
    var ps := Letter(e, m);
    assert ps != [] ==> ps[..0] == [];
  }

  /** If every room state told to m arrives, m reads what it is shown. */
  lemma {:induction false} ReadsWhatIsShown(views: map<Sid, RoomView>, r: ReadRoom, fx: seq<Effect>, m: Sid)
    requires forall i :: 0 <= i < |fx| && fx[i].Send? && fx[i].to == m && fx[i].msg.RoomState? ==> ReadsBack(fx[i].msg.view)
    requires m in views ==> r == ReadRoom(views[m])
    ensures m in Shown(views, fx) ==> ReadNext(r, Letters(fx, m)) == ReadRoom(Shown(views, fx)[m])
  {
    if fx != [] {
      var init, e := fx[..|fx| - 1], fx[|fx| - 1];
      ReadsWhatIsShown(views, r, init, m);
      ReadAppend(r, Letters(init, m), Letter(e, m));
      ReadLetter(ReadNext(r, Letters(init, m)), e, m);
    }
  }

  lemma {:induction false} LettersCons(e: Effect, fx: seq<Effect>, s: Sid)
    ensures Letters([e] + fx, s) == Letter(e, s) + Letters(fx, s)
  {
    if fx == [] {
      assert [e] + fx == [] + [e];
      assert ([e] + fx)[..0] == [];
    } else {
      var init, last := fx[..|fx| - 1], fx[|fx| - 1];
      LettersCons(e, init, s);
      assert ([e] + fx)[..|fx|] == [e] + init && ([e] + fx)[|fx|] == last;
      PlusAssociates(Letter(e, s), Letters(init, s), Letter(last, s));
    }
  }

  lemma {:induction false} LettersToNobody(fx: seq<Effect>, s: Sid)
    requires forall i :: 0 <= i < |fx| ==> fx[i].to != s
    ensures Letters(fx, s) == []
  {
    if fx != [] {
      LettersToNobody(fx[..|fx| - 1], s);
    }
  }

  // ---- whom a job tells about which room ----------------------------------------------------------

  /** A room state goes to a player in that room, and is the room as the job leaves it. */
  ghost predicate TellsItsRoom(l: Lobby, fx: seq<Effect>) {
    forall i :: 0 <= i < |fx| && fx[i].Send? && fx[i].msg.RoomState? ==>
      && fx[i].to in l.players && l.players[fx[i].to].room.To?
      && fx[i].msg.view == View(l, l.players[fx[i].to].room.key)
  }

  lemma BroadcastTellsItsRoom(l: Lobby, k: int)
    requires Linked(l) && k in l.rooms
    ensures TellsItsRoom(l, BroadcastRoomState(l, k))
  {
    var ms := l.rooms[k].members;
    assert forall i :: 0 <= i < |ms| ==> ms[i] in ms;
  }

  lemma JoinTells(l: Lobby, s: Sid, body: seq<byte>, env: Env)
    requires Core(l) && PickOk(l, env) && s in l.players && l.players[s].state == LoggedIn
    ensures var o := OnJoinRoom(l, s, body, env.pick); o.Done? ==> TellsItsRoom(o.lobby, o.effects)
  {
    if |body| == 4 && ReadI32(body, 0) >= 0 {
      AcquireKeeps(l, ReadI32(body, 0), env);
      var a := AcquireGameRoom(l, ReadI32(body, 0), env.pick);
      if a.Acquired? && !RoomAt(a.lobby, a.k).started && !RoomAt(a.lobby, a.k).IsFull() {
        SeatKeeps(a.lobby, s, a.k);
        BroadcastTellsItsRoom(Seat(a.lobby, s, a.k), a.k);
      }
    }
  }

  /** Starting changes nothing a room state says. */
  lemma StartTells(l: Lobby, k: int)
    requires Core(l) && k in l.rooms
    ensures var l1 := TryStartGame(l, k);
            TellsItsRoom(l1, BroadcastRoomState(l, k) + StartEffects(l, k))
  {
    var l1 := TryStartGame(l, k);
    BroadcastTellsItsRoom(l, k);
    assert View(l1, k) == View(l, k);
    var ms := l.rooms[k].members;
    assert forall i :: 0 <= i < |ms| ==> ms[i] in ms && l.players[ms[i]].room == To(k);
    assert forall m :: m in l.players ==> m in l1.players && l1.players[m].room == l.players[m].room;
  }

  lemma ReadyTells(l: Lobby, s: Sid, body: seq<byte>)
    requires Core(l) && s in l.players && l.players[s].state == InRoom
    ensures var o := OnReady(l, s, body); TellsItsRoom(o.lobby, o.effects)
  {
    var p := l.players[s];
    if !RoomAt(l, p.room.key).started && |body| == 1 {
      EditPlayer(l, s, p.(ready := body[0] != 0));
      StartTells(SetPlayer(l, s, p.(ready := body[0] != 0)), p.room.key);
    }
  }

  lemma DisconnectTells(l: Lobby, s: Sid)
    requires Core(l)
    ensures var o := OnDisconnect(l, s); TellsItsRoom(o.lobby, o.effects)
  {
    DisconnectKeeps(l, s);
    if s in l.players && l.players[s].room.To? {
      LeaveForm(l, s);
      BroadcastTellsItsRoom(OnDisconnect(l, s).lobby, l.players[s].room.key);
    }
  }

  lemma StepTells(l: Lobby, job: Job, env: Env)
    requires Core(l) && PickOk(l, env)
    ensures var o := Step(l, job, env); o.Done? ==> TellsItsRoom(o.lobby, o.effects)
  {
    match job
    case Connect(s) =>
    case Disconnect(s) => DisconnectTells(l, s);
    case Deliver(s, packet) =>
      if s in l.players {
        match GetHandler(l.players[s].state, packet.id)
        case NoHandler =>
        case Login =>
        case EnterRoomHandler =>
        case ChatHandler =>
        case Hello =>
        case JoinRoom => JoinTells(l, s, packet.body, env);
        case Ready => ReadyTells(l, s, packet.body);
      }
  }

  // ---- one job ------------------------------------------------------------------------------------

  /** Each player in a game room is shown it as it is. */
  ghost function TrueViews(l: Lobby): map<Sid, RoomView> {
    map m | m in l.players && l.players[m].room.To? && RoomAt(l, l.players[m].room.key).IsGame() :: View(l, l.players[m].room.key)
  }

  lemma TrueViewsAreGood(l: Lobby)
    requires Core(l) && Separated(l)
    ensures Good(l, TrueViews(l))
  {
    forall k | k in l.rooms
      ensures ShownRoom(l, TrueViews(l), k)
    {
    }
  }

  lemma ToldRoomArrives(l: Lobby, fx: seq<Effect>, k: int, m: Sid, i: nat)
    requires Core(l) && WithinCapacity(l, k) && l.nextPlayerId <= 0x1_0000_0000 && TellsItsRoom(l, fx) && ToldFit(l, fx)
    requires k in l.rooms && l.rooms[k].IsGame() && m in l.rooms[k].members
    requires i < |fx| && fx[i].Send? && fx[i].to == m && fx[i].msg.RoomState?
    ensures ReadsBack(fx[i].msg.view)
  {
    assert IsTold(fx, m) && l.players[m].room == To(k);
    RoomStateSize(l, k);
    PostedIff(View(l, k));
    GameRoomReadsBack(l, k);
  }

  /** Seeing the room as it is means it fits. */
  lemma SeenIsSmall(l: Lobby, read: Sid -> ReadRoom, k: int, m: Sid)
    requires Linked(l) && AllSee(l, read) && CameInPackets(read) && k in l.rooms && l.rooms[k].IsGame() && m in l.rooms[k].members
    ensures StateSize(l, l.rooms[k].members) <= MAX_PACKET_SIZE - HEADER_SIZE
  {
    SeesTheView(l, k, read(m));
    RoomStateSize(l, k);
  }

  lemma ToldFitSees(l: Lobby, read: Sid -> ReadRoom, job: Job, env: Env, k: int, m: Sid)
    requires Core(l) && Separated(l) && AllSee(l, read) && PickOk(l, env) && Polite(l, job) && Step(l, job, env).Done?
    requires var o := Step(l, job, env);
             && o.lobby.nextPlayerId <= 0x1_0000_0000 && ToldFit(o.lobby, o.effects)
             && k in o.lobby.rooms && o.lobby.rooms[k].IsGame() && m in o.lobby.rooms[k].members
    ensures var o := Step(l, job, env); ReadAfter(read, o.effects)(m) == ReadRoom(View(o.lobby, k))
  {
    var o := Step(l, job, env);
    var views := TrueViews(l);
    TrueViewsAreGood(l);
    StepKeepsGood(l, views, job, env);
    StepTells(l, job, env);
    assert ShownRoom(o.lobby, Shown(views, o.effects), k) && Tidy(o.lobby, k);
    forall i | 0 <= i < |o.effects| && o.effects[i].Send? && o.effects[i].to == m && o.effects[i].msg.RoomState?
      ensures ReadsBack(o.effects[i].msg.view)
    {
      ToldRoomArrives(o.lobby, o.effects, k, m, i);
    }
    SeenViews(l, read, m);
    ReadsWhatIsShown(views, read(m), o.effects, m);
  }

  lemma SeenViews(l: Lobby, read: Sid -> ReadRoom, m: Sid)
    requires Core(l) && AllSee(l, read)
    ensures m in TrueViews(l) ==> read(m) == ReadRoom(TrueViews(l)[m])
  {
    if m in TrueViews(l) {
      var k := l.players[m].room.key;
      assert k in l.rooms && m in l.rooms[k].members;
      SeesTheView(l, k, read(m));
    }
  }

  lemma StepKeepsLinked(l: Lobby, job: Job, env: Env)
    requires Core(l) && Separated(l) && PickOk(l, env) && Polite(l, job) && Step(l, job, env).Done?
    ensures Linked(Step(l, job, env).lobby)
  {
    TrueViewsAreGood(l);
    StepStaysGood(l, TrueViews(l), job, env);
  }

  /** The exact condition, for every polite job from a lobby in which everyone in a game room has been posted it
      as it is: so it stays exactly when each game room the job tells leaves room for its members' names. */
  lemma StepIsSeenIff(l: Lobby, read: Sid -> ReadRoom, job: Job, env: Env)
    requires Core(l) && Separated(l) && AllSee(l, read) && CameInPackets(read)
    requires PickOk(l, env) && Polite(l, job) && Step(l, job, env).Done? && Step(l, job, env).lobby.nextPlayerId <= 0x1_0000_0000
    ensures var o := Step(l, job, env); AllSee(o.lobby, ReadAfter(read, o.effects)) <==> ToldFit(o.lobby, o.effects)
    ensures CameInPackets(ReadAfter(read, Step(l, job, env).effects))
  {
    var o := Step(l, job, env);
    StillInPackets(read, o.effects);
    StepKeepsLinked(l, job, env);
    if AllSee(o.lobby, ReadAfter(read, o.effects)) {
      forall k, m | k in o.lobby.rooms && o.lobby.rooms[k].IsGame() && m in o.lobby.rooms[k].members && IsTold(o.effects, m)
        ensures StateSize(o.lobby, o.lobby.rooms[k].members) <= MAX_PACKET_SIZE - HEADER_SIZE
      {
        SeenIsSmall(o.lobby, ReadAfter(read, o.effects), k, m);
      }
    }
    if ToldFit(o.lobby, o.effects) {
      forall k, m | k in o.lobby.rooms && o.lobby.rooms[k].IsGame() && m in o.lobby.rooms[k].members
        ensures SeesRoom(o.lobby, k, ReadAfter(read, o.effects)(m))
      {
        ToldFitSees(l, read, job, env, k, m);
        SeesTheView(o.lobby, k, ReadAfter(read, o.effects)(m));
      }
    }
  }

  // ---- over runs ----------------------------------------------------------------------------------

  /** What a run of jobs posts to s. */
  ghost function LettersOf(jobs: seq<Job>, envs: seq<Env>, s: Sid): seq<Packet>
    requires |jobs| == |envs|
  {
    if jobs == [] then []
    else
      var n := |jobs| - 1;
      var r := After(jobs[..n], envs[..n]);
      LettersOf(jobs[..n], envs[..n], s) +
      if r.Running? && Step(r.lobby, jobs[n], envs[n]).Done? then Letters(Step(r.lobby, jobs[n], envs[n]).effects, s) else []
  }

  /** What each client last read by the end of a run. */
  ghost function ReadOf(jobs: seq<Job>, envs: seq<Env>): Sid -> ReadRoom
    requires |jobs| == |envs|
  {
    (m: Sid) => ReadNext(NotARoom, LettersOf(jobs, envs, m))
  }

  lemma ReadOfStep(jobs: seq<Job>, envs: seq<Env>, m: Sid)
    requires |jobs| == |envs| && jobs != []
    ensures var n := |jobs| - 1;
            var r := After(jobs[..n], envs[..n]);
            r.Running? && Step(r.lobby, jobs[n], envs[n]).Done? ==>
              ReadOf(jobs, envs)(m) == ReadAfter(ReadOf(jobs[..n], envs[..n]), Step(r.lobby, jobs[n], envs[n]).effects)(m)
  {
    var n := |jobs| - 1;
    var r := After(jobs[..n], envs[..n]);
    if r.Running? && Step(r.lobby, jobs[n], envs[n]).Done? {
      ReadAppend(NotARoom, LettersOf(jobs[..n], envs[..n], m), Letters(Step(r.lobby, jobs[n], envs[n]).effects, m));
    }
  }

  lemma {:induction false} LettersOfAreValid(jobs: seq<Job>, envs: seq<Env>, s: Sid)
    requires |jobs| == |envs|
    ensures AllValid(LettersOf(jobs, envs, s))
  {
    if jobs != [] {
      var n := |jobs| - 1;
      LettersOfAreValid(jobs[..n], envs[..n], s);
      var r := After(jobs[..n], envs[..n]);
      if r.Running? && Step(r.lobby, jobs[n], envs[n]).Done? {
        LettersAreValid(Step(r.lobby, jobs[n], envs[n]).effects, s);
      }
    }
  }

  lemma ReadOfCame(jobs: seq<Job>, envs: seq<Env>)
    requires |jobs| == |envs|
    ensures CameInPackets(ReadOf(jobs, envs))
  {
    forall m: Sid
      ensures var n := ReadOf(jobs, envs)(m); n.ReadRoom? ==> |RoomStateBody(n.view)| <= MAX_PACKET_SIZE - HEADER_SIZE
    {
      LettersOfAreValid(jobs, envs, m);
      ReadIsSmall(NotARoom, LettersOf(jobs, envs, m));
    }
  }

  /** After the first i jobs everyone in a game room has been posted it as it is. */
  ghost predicate SeenAt(jobs: seq<Job>, envs: seq<Env>, i: nat)
    requires |jobs| == |envs| && i <= |jobs|
  {
    var r := After(jobs[..i], envs[..i]);
    r.Running? ==> AllSee(r.lobby, ReadOf(jobs[..i], envs[..i]))
  }

  ghost predicate JobFits(l: Lobby, job: Job, env: Env) {
    var o := Step(l, job, env);
    o.Done? ==> ToldFit(o.lobby, o.effects)
  }

  ghost predicate ToldFitAt(jobs: seq<Job>, envs: seq<Env>, i: nat)
    requires |jobs| == |envs| && i < |jobs|
  {
    var r := After(jobs[..i], envs[..i]);
    r.Running? ==> JobFits(r.lobby, jobs[i], envs[i])
  }

  /** Player ids fit the wire in every lobby of the run. */
  ghost predicate IdsFit(jobs: seq<Job>, envs: seq<Env>)
    requires |jobs| == |envs|
  {
    forall i :: 0 <= i <= |jobs| && After(jobs[..i], envs[..i]).Running? ==> After(jobs[..i], envs[..i]).lobby.nextPlayerId <= 0x1_0000_0000
  }

  lemma GoodPrefix(jobs: seq<Job>, envs: seq<Env>, i: nat)
    requires |jobs| == |envs| && PicksOk(jobs, envs) && i <= |jobs|
    requires Throughout(jobs, envs, (l: Lobby, job: Job, env: Env) => Polite(l, job))
    ensures var r := After(jobs[..i], envs[..i]); r.Running? ==> Good(r.lobby, r.views)
  {
    forall j | 0 <= j < i
      ensures jobs[..i][..j] == jobs[..j] && envs[..i][..j] == envs[..j]
    {
    }
    RunKeepsGood(jobs[..i], envs[..i]);
  }

  lemma SeenNextIff(jobs: seq<Job>, envs: seq<Env>, i: nat)
    requires |jobs| == |envs| && PicksOk(jobs, envs) && IdsFit(jobs, envs) && i < |jobs|
    requires Throughout(jobs, envs, (l: Lobby, job: Job, env: Env) => Polite(l, job))
    requires SeenAt(jobs, envs, i)
    ensures SeenAt(jobs, envs, i + 1) <==> ToldFitAt(jobs, envs, i)
  {
    var js, es := jobs[..i + 1], envs[..i + 1];
    assert js[..i] == jobs[..i] && es[..i] == envs[..i];
    var r := After(jobs[..i], envs[..i]);
    if r.Running? && Step(r.lobby, jobs[i], envs[i]).Done? {
      var o := Step(r.lobby, jobs[i], envs[i]);
      var read := ReadOf(jobs[..i], envs[..i]);
      assert After(js, es).Running? && After(js, es).lobby == o.lobby;
      GoodPrefix(jobs, envs, i);
      ReadOfCame(jobs[..i], envs[..i]);
      StepIsSeenIff(r.lobby, read, jobs[i], envs[i]);
      forall m: Sid
        ensures ReadOf(js, es)(m) == ReadAfter(read, o.effects)(m)
      {
        ReadOfStep(js, es, m);
      }
    }
  }

  lemma {:induction false} FittingRunIsSeen(jobs: seq<Job>, envs: seq<Env>, n: nat)
    requires |jobs| == |envs| && PicksOk(jobs, envs) && IdsFit(jobs, envs) && n <= |jobs|
    requires Throughout(jobs, envs, (l: Lobby, job: Job, env: Env) => Polite(l, job))
    requires forall i :: 0 <= i < n ==> ToldFitAt(jobs, envs, i)
    ensures SeenAt(jobs, envs, n)
  {
    if n > 0 {
      FittingRunIsSeen(jobs, envs, n - 1);
      SeenNextIff(jobs, envs, n - 1);
    }
  }

  /** Over every run of polite clients: everyone in a game room has been posted it as it is, after every job,
      exactly when every job leaves room for the names of the game rooms it tells. */
  lemma RunIsSeenIff(jobs: seq<Job>, envs: seq<Env>)
    requires |jobs| == |envs| && PicksOk(jobs, envs) && IdsFit(jobs, envs)
    requires Throughout(jobs, envs, (l: Lobby, job: Job, env: Env) => Polite(l, job))
    ensures (forall i :: 0 <= i <= |jobs| ==> SeenAt(jobs, envs, i)) <==> (forall i :: 0 <= i < |jobs| ==> ToldFitAt(jobs, envs, i))
  {
    if forall i :: 0 <= i < |jobs| ==> ToldFitAt(jobs, envs, i) {
      forall n | 0 <= n <= |jobs| ensures SeenAt(jobs, envs, n) { FittingRunIsSeen(jobs, envs, n); }
    }
    if forall i :: 0 <= i <= |jobs| ==> SeenAt(jobs, envs, i) {
      forall n | 0 <= n < |jobs| ensures ToldFitAt(jobs, envs, n) {
        assert SeenAt(jobs, envs, n) && SeenAt(jobs, envs, n + 1);
        SeenNextIff(jobs, envs, n);
      }
    }
  }

  // ---- short names --------------------------------------------------------------------------------

  lemma {:induction false} CountersFitBefore(jobs: seq<Job>, envs: seq<Env>, i: nat)
    requires |jobs| == |envs| && i <= |jobs| && After(jobs, envs).Running? && CountersFit(After(jobs, envs).lobby)
    ensures var r := After(jobs[..i], envs[..i]); r.Running? && CountersFit(r.lobby)
    decreases |jobs|
  {
    if i == |jobs| {
      assert jobs[..i] == jobs && envs[..i] == envs;
    } else {
      var n := |jobs| - 1;
      StepCounts(After(jobs[..n], envs[..n]).lobby, jobs[n], envs[n]);
      CountersFitBefore(jobs[..n], envs[..n], i);
      assert jobs[..n][..i] == jobs[..i] && envs[..n][..i] == envs[..i];
    }
  }

  /** Polite clients whose names have at most 2035 bytes, in a run that wraps no counter. */
  ghost predicate IsShortRun(jobs: seq<Job>, envs: seq<Env>)
    requires |jobs| == |envs|
  {
    && PicksOk(jobs, envs) && Throughout(jobs, envs, (l: Lobby, job: Job, env: Env) => Polite(l, job))
    && (forall i :: 0 <= i < |jobs| ==> NamesShortly(jobs[i], SHORT_NAME))
    && After(jobs, envs).Running? && CountersFit(After(jobs, envs).lobby)
  }

  lemma ShortPrefix(jobs: seq<Job>, envs: seq<Env>, i: nat)
    requires |jobs| == |envs| && i <= |jobs| && IsShortRun(jobs, envs)
    ensures IsShortRun(jobs[..i], envs[..i])
  {
    CountersFitBefore(jobs, envs, i);
    forall j | 0 <= j < i
      ensures jobs[..i][..j] == jobs[..j] && envs[..i][..j] == envs[..j]
    {
    }
  }

  ghost predicate RoomsFit(l: Lobby) {
    forall k :: k in l.rooms && l.rooms[k].IsGame() ==> StateSize(l, l.rooms[k].members) <= MAX_PACKET_SIZE - HEADER_SIZE
  }

  lemma ShortRunFits(jobs: seq<Job>, envs: seq<Env>)
    requires |jobs| == |envs| && IsShortRun(jobs, envs)
    ensures RoomsFit(After(jobs, envs).lobby)
  {
    RunKeepsGood(jobs, envs);
    RunKeepsNames(jobs, envs, SHORT_NAME);
    var l := After(jobs, envs).lobby;
    forall k | k in l.rooms && l.rooms[k].IsGame()
      ensures StateSize(l, l.rooms[k].members) <= MAX_PACKET_SIZE - HEADER_SIZE
    {
      assert Tidy(l, k);
      ShortNamesFit(l, k);
    }
  }

  lemma NextLobby(jobs: seq<Job>, envs: seq<Env>, i: nat)
    requires |jobs| == |envs| && i < |jobs|
    ensures var r, r1 := After(jobs[..i], envs[..i]), After(jobs[..i + 1], envs[..i + 1]);
            r.Running? && Step(r.lobby, jobs[i], envs[i]).Done? ==> r1.Running? && r1.lobby == Step(r.lobby, jobs[i], envs[i]).lobby
  {
    assert jobs[..i + 1][..i] == jobs[..i] && envs[..i + 1][..i] == envs[..i];
  }

  lemma FittingRoomsToldFit(jobs: seq<Job>, envs: seq<Env>, i: nat)
    requires |jobs| == |envs| && i < |jobs|
    requires var r1 := After(jobs[..i + 1], envs[..i + 1]); r1.Running? && RoomsFit(r1.lobby)
    ensures ToldFitAt(jobs, envs, i)
  {
    NextLobby(jobs, envs, i);
  }

  lemma ShortRunToldFit(jobs: seq<Job>, envs: seq<Env>, i: nat)
    requires |jobs| == |envs| && i < |jobs| && IsShortRun(jobs, envs)
    ensures ToldFitAt(jobs, envs, i)
  {
    ShortPrefix(jobs, envs, i + 1);
    ShortRunFits(jobs[..i + 1], envs[..i + 1]);
    FittingRoomsToldFit(jobs, envs, i);
  }

  lemma IdsFitBefore(jobs: seq<Job>, envs: seq<Env>)
    requires |jobs| == |envs| && After(jobs, envs).Running? && CountersFit(After(jobs, envs).lobby)
    ensures IdsFit(jobs, envs)
  {
    forall i | 0 <= i <= |jobs|
      ensures After(jobs[..i], envs[..i]).Running? ==> After(jobs[..i], envs[..i]).lobby.nextPlayerId <= 0x1_0000_0000
    {
      CountersFitBefore(jobs, envs, i);
    }
  }

  /** At the end of every run of polite clients in which each job leaves room for the names of the game rooms it
      tells, everyone in a game room has been posted it as it is. */
  lemma FittingRunArrives(jobs: seq<Job>, envs: seq<Env>)
    requires |jobs| == |envs| && PicksOk(jobs, envs) && After(jobs, envs).Running? && CountersFit(After(jobs, envs).lobby)
    requires Throughout(jobs, envs, (l: Lobby, job: Job, env: Env) => Polite(l, job))
    requires forall i :: 0 <= i < |jobs| ==> ToldFitAt(jobs, envs, i)
    ensures AllSee(After(jobs, envs).lobby, ReadOf(jobs, envs))
  {
    IdsFitBefore(jobs, envs);
    FittingRunIsSeen(jobs, envs, |jobs|);
    assert jobs[..|jobs|] == jobs && envs[..|jobs|] == envs;
  }

  /** At the end of every run of polite clients with short names, what each member of a game room reads off the
      last room state posted to it is its room as it is. */
  lemma RoomsArriveAsTheyAre(jobs: seq<Job>, envs: seq<Env>)
    requires |jobs| == |envs| && IsShortRun(jobs, envs)
    ensures AllSee(After(jobs, envs).lobby, ReadOf(jobs, envs))
  {
    forall i | 0 <= i < |jobs| ensures ToldFitAt(jobs, envs, i) { ShortRunToldFit(jobs, envs, i); }
    FittingRunArrives(jobs, envs);
  }

  // ---- chat ---------------------------------------------------------------------------------------

  lemma {:induction false} NoLetters(fx: seq<Effect>, m: Sid)
    requires forall i :: 0 <= i < |fx| ==> Letter(fx[i], m) == []
    ensures Letters(fx, m) == []
  {
    if fx != [] {
      NoLetters(fx[..|fx| - 1], m);
    }
  }

  lemma {:induction false} OneLetter(fx: seq<Effect>, i: nat, m: Sid)
    requires i < |fx| && forall j :: 0 <= j < |fx| && j != i ==> Letter(fx[j], m) == []
    ensures Letters(fx, m) == Letter(fx[i], m)
  {
    if i < |fx| - 1 {
      OneLetter(fx[..|fx| - 1], i, m);
    } else {
      NoLetters(fx[..i], m);
    }
  }

  /** A message to everyone is one letter to each of them. */
  lemma LettersToAll(ms: seq<Sid>, msg: Msg, m: Sid)
    requires NoDup(ms)
    ensures Letters(SendAll(ms, msg), m) == if m in ms then Letter(Send(m, msg), m) else []
  {
    if m in ms {
      var i :| 0 <= i < |ms| && ms[i] == m;
      OneLetter(SendAll(ms, msg), i, m);
    } else {
      NoLetters(SendAll(ms, msg), m);
    }
  }

  lemma {:induction false} OthersOnce(ms: seq<Sid>, s: Sid)
    requires NoDup(ms)
    ensures NoDup(Others(ms, s))
  {
    if ms != [] {
      var tail := Others(ms[1..], s);
      OthersOnce(ms[1..], s);
      OthersFacts(ms[1..], s);
      assert ms == [ms[0]] + ms[1..] && ms[0] !in tail;
      if ms[0] != s {
        assert Others(ms, s) == [ms[0]] + tail;
      }
    }
  }

  lemma WireOfChat(id: nat, name: seq<byte>, text: seq<byte>)
    ensures Wire(Chat(id, name, text)) == Packet(SC_CHAT, ChatBody(id, name, text))
  {
  }

  /** On the wire: each other member of the sender's room is posted one SC_CHAT, which reads back as the sender's
      id and name and the clipped text; nobody else is posted anything. */
  lemma ChatArrives(l: Lobby, s: Sid, body: seq<byte>, m: Sid)
    requires Core(l) && s in l.players && l.players[s].state == InRoom && l.nextPlayerId <= 0x1_0000_0000
    requires l.players[s].name != [] && body != [] && CHAT_OVERHEAD + |l.players[s].name| < MAX_PACKET_SIZE
    ensures var p := l.players[s];
            var chat := ChatBody(p.id, p.name, Clip(p.name, body));
            && Letters(OnChat(l, s, body).effects, m) ==
               (if m in l.players && m != s && l.players[m].room == p.room then [Packet(SC_CHAT, chat)] else [])
            && ReadChat(chat) == ParsedChat(p.id, p.name, Clip(p.name, body))
  {
    var p := l.players[s];
    var msg := Chat(p.id, p.name, Clip(p.name, body));
    ClippedChatArrives(p.id, p.name, body);
    WireOfChat(p.id, p.name, Clip(p.name, body));
    assert Letter(Send(m, msg), m) == [Packet(SC_CHAT, ChatBody(p.id, p.name, Clip(p.name, body)))];
    ChatLetters(l, s, body, msg, m);
  }

  lemma ChatLetters(l: Lobby, s: Sid, body: seq<byte>, msg: Msg, m: Sid)
    requires Core(l) && s in l.players && l.players[s].state == InRoom
    requires l.players[s].name != [] && body != [] && CHAT_OVERHEAD + |l.players[s].name| < MAX_PACKET_SIZE
    requires msg == Chat(l.players[s].id, l.players[s].name, Clip(l.players[s].name, body))
    ensures Letters(OnChat(l, s, body).effects, m) ==
            if m in l.players && m != s && l.players[m].room == l.players[s].room then Letter(Send(m, msg), m) else []
  {
    var k := l.players[s].room.key;
    var ms := l.rooms[k].members;
    assert OnChat(l, s, body).effects == SendAll(Others(ms, s), msg);
    MembersOf(l, k, m);
    OthersFacts(ms, s);
    OthersOnce(ms, s);
    LettersToAll(Others(ms, s), msg, m);
  }

  /** In every run of polite clients no job sends a chat to a player in a match. */
  lemma RunChatsNoMatch(jobs: seq<Job>, envs: seq<Env>, i: nat)
    requires |jobs| == |envs| && PicksOk(jobs, envs) && i < |jobs|
    requires Throughout(jobs, envs, (l: Lobby, job: Job, env: Env) => Polite(l, job))
    ensures var r := After(jobs[..i], envs[..i]);
            r.Running? && Step(r.lobby, jobs[i], envs[i]).Done? ==> NoChatToPlaying(r.lobby, Step(r.lobby, jobs[i], envs[i]).effects)
  {
    GoodPrefix(jobs, envs, i);
    var r := After(jobs[..i], envs[..i]);
    if r.Running? {
      NoChatReachesAMatch(r.lobby, jobs[i], envs[i]);
    }
  }

  // ---- a match of players who were never shown each other -----------------------------------------

  function LoginAs(s: Sid, name: seq<byte>): Job { Deliver(s, Packet(CS_LOGIN, name)) }

  function NamedAs(name: seq<byte>): Lobby { Lobby(map[1 := Player(1, name, LoggedIn, false, Null)], LOBBY, 2, 100, 1) }
  function AloneAs(name: seq<byte>): Lobby { Lobby(map[1 := Player(1, name, InRoom, false, To(5))], LOBBY[5 := FIVE], 2, 100, 1) }
  function AloneAndFresh(name: seq<byte>): Lobby { Lobby(AloneAs(name).players[2 := Fresh(2)], LOBBY[5 := FIVE], 3, 100, 1) }
  function AloneAndNamed(name: seq<byte>): Lobby { Lobby(AloneAs(name).players[2 := Player(2, name, LoggedIn, false, Null)], LOBBY[5 := FIVE], 3, 100, 1) }
  function BothAs(name: seq<byte>): Lobby { Lobby(AloneAs(name).players[2 := Player(2, name, InRoom, false, To(5))], LOBBY[5 := PAIR], 3, 100, 1) }
  function OneReadyAs(name: seq<byte>): Lobby { Lobby(map[1 := Player(1, name, InRoom, true, To(5)), 2 := Player(2, name, InRoom, false, To(5))], LOBBY[5 := PAIR], 3, 100, 1) }
  function DueAs(name: seq<byte>): Lobby { Lobby(map[1 := Player(1, name, InRoom, true, To(5)), 2 := Player(2, name, InRoom, true, To(5))], LOBBY[5 := PAIR], 3, 100, 1) }
  function PlayedAs(name: seq<byte>): Lobby { Lobby(map[1 := Player(1, name, InGame, true, To(5)), 2 := Player(2, name, InGame, true, To(5))], LOBBY[5 := PAIR.(started := true)], 3, 100, 2) }

  lemma LongFirstJoins(name: seq<byte>)
    requires name != []
    ensures Goes(ONE_CONNECTED, LoginAs(1, name), Null, NamedAs(name))
    ensures Goes(NamedAs(name), JoinGame(1, 5), Null, AloneAs(name))
  {
    ReadBack(5);
    var made := SetRoom(NamedAs(name), 5, NewGameRoom(5));
    assert AcquireGameRoom(NamedAs(name), 5, Null) == Acquired(made, 5);
    assert NewGameRoom(5) == Room(5, [], 2, false) && [] + [1] == [1];
    assert LeaveCurrent(made, 1) == made;
    assert Seat(made, 1, 5) == AloneAs(name);
  }

  lemma LongSecondIsNamed(name: seq<byte>)
    requires name != []
    ensures Goes(AloneAs(name), Connect(2), To(5), AloneAndFresh(name))
    ensures Goes(AloneAndFresh(name), LoginAs(2, name), To(5), AloneAndNamed(name))
  {
    assert FIVE.IsOpen();
  }

  lemma LongSecondJoins(name: seq<byte>)
    requires name != []
    ensures Goes(AloneAndNamed(name), JoinGame(2, 5), To(5), BothAs(name))
    ensures Step(AloneAndNamed(name), JoinGame(2, 5), Env(To(5), 0)).effects == SendAll([1, 2], RoomState(View(BothAs(name), 5)))
  {
    ReadBack(5);
    assert FIVE.IsOpen() && [1] + [2] == [1, 2];
    assert AcquireGameRoom(AloneAndNamed(name), 5, To(5)) == Acquired(AloneAndNamed(name), 5);
    assert LeaveCurrent(AloneAndNamed(name), 2) == AloneAndNamed(name);
    assert Seat(AloneAndNamed(name), 2, 5) == BothAs(name);
  }

  lemma LongFirstIsReady(name: seq<byte>)
    ensures Goes(BothAs(name), SayReady(1), Null, OneReadyAs(name))
  {
    assert SetPlayer(BothAs(name), 1, BothAs(name).players[1].(ready := true)) == OneReadyAs(name);
    assert !Get(OneReadyAs(name), PAIR.members[1]).ready;
  }

  lemma LongSecondIsReady(name: seq<byte>)
    ensures Goes(OneReadyAs(name), SayReady(2), Null, PlayedAs(name))
  {
    assert SetPlayer(OneReadyAs(name), 2, OneReadyAs(name).players[2].(ready := true)) == DueAs(name);
    assert Due(DueAs(name), 5);
    assert AllInGame(DueAs(name).players, PAIR.members) == PlayedAs(name).players;
    assert Started(DueAs(name), 5) == PlayedAs(name);
  }

  /** One byte more than SHORT_NAME and SendPacket drops the room state of the two. */
  lemma LongRoomIsDropped(name: seq<byte>)
    requires SHORT_NAME < |name| <= MAX_PACKET_SIZE - HEADER_SIZE
    ensures StateSize(BothAs(name), [1, 2]) == 21 + 2 * |name| && !Wire(RoomState(View(BothAs(name), 5))).Valid()
  {
    assert [1, 2][..1] == [1] && [1][..0] == [];
    assert StateSize(BothAs(name), [1]) == StateSize(BothAs(name), []) + 7 + |name|;
    RoomStateSize(BothAs(name), 5);
    PostedIff(View(BothAs(name), 5));
  }

  lemma LongRoomIsUnseen(name: seq<byte>, read: Sid -> ReadRoom)
    requires SHORT_NAME < |name| <= MAX_PACKET_SIZE - HEADER_SIZE && CameInPackets(read)
    ensures !AllSee(BothAs(name), read)
  {
    LongRoomIsDropped(name);
    assert Linked(BothAs(name));
    if AllSee(BothAs(name), read) {
      SeenIsSmall(BothAs(name), read, 5, 1);
    }
  }

  /** Polite clients, packets of legal size, names longer than SHORT_NAME: the second join tells both players the room of
      the two, neither is posted it, whatever they read in packets they do not see it, and their match starts. */
  lemma LongNamesRun(name: seq<byte>, read: Sid -> ReadRoom)
    requires SHORT_NAME < |name| <= MAX_PACKET_SIZE - HEADER_SIZE && CameInPackets(read)
    ensures Goes(INITIAL, Connect(1), Null, ONE_CONNECTED)
    ensures Goes(ONE_CONNECTED, LoginAs(1, name), Null, NamedAs(name)) && IsLegal(LoginAs(1, name)) && Polite(ONE_CONNECTED, LoginAs(1, name))
    ensures Goes(NamedAs(name), JoinGame(1, 5), Null, AloneAs(name)) && Polite(NamedAs(name), JoinGame(1, 5))
    ensures Goes(AloneAs(name), Connect(2), To(5), AloneAndFresh(name))
    ensures Goes(AloneAndFresh(name), LoginAs(2, name), To(5), AloneAndNamed(name)) && IsLegal(LoginAs(2, name)) && Polite(AloneAndFresh(name), LoginAs(2, name))
    ensures Goes(AloneAndNamed(name), JoinGame(2, 5), To(5), BothAs(name)) && Polite(AloneAndNamed(name), JoinGame(2, 5))
    ensures Step(AloneAndNamed(name), JoinGame(2, 5), Env(To(5), 0)).effects == SendAll([1, 2], RoomState(View(BothAs(name), 5)))
    ensures !Wire(RoomState(View(BothAs(name), 5))).Valid() && !AllSee(BothAs(name), read)
    ensures Goes(BothAs(name), SayReady(1), Null, OneReadyAs(name)) && Polite(BothAs(name), SayReady(1))
    ensures Goes(OneReadyAs(name), SayReady(2), Null, PlayedAs(name)) && Polite(OneReadyAs(name), SayReady(2))
    ensures IsStarted(PlayedAs(name), 5)
  {
    FirstTwoSteps();
    LongFirstJoins(name);
    LongSecondIsNamed(name);
    LongSecondJoins(name);
    LongRoomIsDropped(name);
    LongFirstIsReady(name);
    LongSecondIsReady(name);
    LongRoomIsUnseen(name, read);
  }
}
