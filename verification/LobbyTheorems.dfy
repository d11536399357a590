/** What single jobs do and refuse, and what holds over every run of the game thread. */
module LobbyTheorems {
  import opened Bytes
  import opened Framing
  import opened Protocol
  import opened Lobby
  import opened LobbyInvariant
  import opened LobbySeparation

  // ---- joining a game room ------------------------------------------------------------------------

  /** A game room with a free seat, whose match has not started. */
  predicate HasSeat(r: Room) {
    r.capacity != 0 && !r.started && |r.members| < r.capacity
  }

  ghost predicate SomeSeat(l: Lobby) {
    exists k :: k in l.rooms && HasSeat(l.rooms[k])
  }

  /** When a well-formed request for a room is granted. */
  ghost predicate Joinable(l: Lobby, requested: int) {
    requested >= 0 &&
    (requested == 0
     || requested !in l.rooms
     || HasSeat(l.rooms[requested])
     || (l.rooms[requested].capacity == 0 && l.rooms[requested].members == []))
  }

  /** The error that goes with each reason to refuse. */
  ghost predicate Refuses(l: Lobby, body: seq<byte>, code: nat) {
    if |body| != 4 then code == ERR_BAD_FORMAT
    else
      var k := ReadI32(body, 0);
      if k < 0 then code == ERR_NO_SUCH_ROOM
      else
        && k in l.rooms
        && if l.rooms[k].started then code == ERR_MATCH_ENDED
           else if l.rooms[k].capacity != 0 then |l.rooms[k].members| >= l.rooms[k].capacity && code == ERR_ROOM_FULL
           else l.rooms[k].members != [] && code == ERR_NO_SUCH_ROOM
  }

  /** The room got: the one named; or one with a seat if there is one; or the next number, made for it. */
  ghost predicate GetsRoom(l: Lobby, requested: int, l1: Lobby, k: int) {
    if requested != 0 then k == requested && l1.nextGameRoomId == l.nextGameRoomId
    else if SomeSeat(l) then k in l.rooms && HasSeat(l.rooms[k]) && l1.nextGameRoomId == l.nextGameRoomId
    else k !in l.rooms && k == l.nextGameRoomId && l1.nextGameRoomId == k + 1
  }

  /** The player has come last into room k, a game room within its capacity, which is a new one if there was
      none; no other room has changed. */
  ghost predicate SitsIn(l: Lobby, s: Sid, l1: Lobby, k: int) {
    && k >= 1 && l1.rooms.Keys == l.rooms.Keys + {k}
    && (forall r :: r in l.rooms && r != k ==> l1.rooms[r] == l.rooms[r])
    && l1.rooms[k].members == (if k in l.rooms then l.rooms[k].members else []) + [s]
    && l1.rooms[k].capacity == GAME_ROOM_CAPACITY && |l1.rooms[k].members| <= GAME_ROOM_CAPACITY && !l1.rooms[k].started
    && l1.rooms[k].id == k % 65536 && (k in l.rooms ==> l1.rooms[k].id == l.rooms[k].id)
  }

  /** The player is the same but for its room, its state and its flag, which is down; nobody else has changed. */
  ghost predicate IsSeated(l: Lobby, s: Sid, l1: Lobby, k: int) {
    && s in l.players && l1.players.Keys == l.players.Keys
    && l1.players[s] == Player(l.players[s].id, l.players[s].name, InRoom, false, To(k))
    && (forall m :: m in l.players && m != s ==> l1.players[m] == l.players[m])
    && l1.nextPlayerId == l.nextPlayerId && l1.nextMatchId == l.nextMatchId
  }

  /** The player sits in the room granted and everyone in it is handed the room as it now is. The number sent is
      cut to 16 bits. */
  ghost predicate Granted(l: Lobby, s: Sid, requested: int, l1: Lobby, fx: seq<Effect>) {
    exists k :: GrantedAs(l, s, requested, l1, fx, k)
  }

  ghost predicate GrantedAs(l: Lobby, s: Sid, requested: int, l1: Lobby, fx: seq<Effect>, k: int) {
    GetsRoom(l, requested, l1, k) && SitsIn(l, s, l1, k) && IsSeated(l, s, l1, k) && TellsMembers(l1, k, fx)
  }

  /** Automatic assignment finds no open room and its next number taken. */
  ghost predicate NoneToGive(l: Lobby) {
    !SomeSeat(l) && l.nextGameRoomId in l.rooms
  }

  /** A CS_JOIN_ROOM is granted exactly when the room asked for is absent, an empty chat room or an
      open game room, or when any room will do; otherwise one error says why and nothing changes. It
      dangles exactly when any room will do and there is none to give. */
  lemma JoinRoomIffJoinable(l: Lobby, s: Sid, body: seq<byte>, env: Env)
    requires Core(l) && PickOk(l, env) && s in l.players && l.players[s].state == LoggedIn
    ensures Step(l, Deliver(s, Packet(20, body)), env).Dangling? <==> |body| == 4 && ReadI32(body, 0) == 0 && NoneToGive(l)
    ensures var o := Step(l, Deliver(s, Packet(20, body)), env);
            o.Done? ==>
              if |body| == 4 && Joinable(l, ReadI32(body, 0))
              then Granted(l, s, ReadI32(body, 0), o.lobby, o.effects)
              else
                && o.lobby == l
                && exists code: nat :: Refuses(l, body, code) && o.effects == [Send(s, Error(CS_JOIN_ROOM, code))]
  {
    assert Step(l, Deliver(s, Packet(20, body)), env) == OnJoinRoom(l, s, body, env.pick);
    if |body| == 4 && Joinable(l, ReadI32(body, 0)) {
      JoinIsGranted(l, s, ReadI32(body, 0), env);
    } else {
      JoinIsRefused(l, s, body, env);
    }
  }

  lemma JoinIsGranted(l: Lobby, s: Sid, requested: int, env: Env)
    requires Core(l) && PickOk(l, env) && s in l.players && l.players[s].state == LoggedIn && Joinable(l, requested)
    ensures var o := JoinRequested(l, s, requested, env.pick);
            if requested == 0 && NoneToGive(l) then o.Dangling? else o.Done? && Granted(l, s, requested, o.lobby, o.effects)
  {
    var a := AcquireGameRoom(l, requested, env.pick);
    AcquireKeeps(l, requested, env);
    if a.Acquired? {
      AcquiredIsPrepared(l, requested, env);
      SeatIsGranted(l, a.lobby, s, requested, a.k);
    }
  }

  /** Room k has a seat in l1, and l1 differs from l at most by its being there and being a game room. */
  ghost predicate IsPrepared(l: Lobby, l1: Lobby, k: int) {
    && k >= 1 && l1.rooms.Keys == l.rooms.Keys + {k} && l1.players == l.players
    && (forall r :: r in l.rooms && r != k ==> l1.rooms[r] == l.rooms[r])
    && l1.rooms[k].members == (if k in l.rooms then l.rooms[k].members else [])
    && l1.rooms[k].capacity == GAME_ROOM_CAPACITY && HasSeat(l1.rooms[k])
    && l1.nextPlayerId == l.nextPlayerId && l1.nextMatchId == l.nextMatchId
  }

  lemma AcquiredIsPrepared(l: Lobby, requested: int, env: Env)
    requires Core(l) && PickOk(l, env) && Joinable(l, requested)
    ensures var a := AcquireGameRoom(l, requested, env.pick);
            a.Acquired? ==> GetsRoom(l, requested, a.lobby, a.k) && IsPrepared(l, a.lobby, a.k)
  {
    AcquireKeeps(l, requested, env);
    if requested == 0 {
      match env.pick
      case To(k) => assert HasSeat(l.rooms[k]);
      case Null => assert forall k :: k in l.rooms && HasSeat(l.rooms[k]) ==> l.rooms[k].IsOpen();
    }
  }

  lemma SeatIsGranted(l: Lobby, l1: Lobby, s: Sid, requested: int, k: int)
    requires Core(l) && Core(l1) && s in l.players && l.players[s].state == LoggedIn
    requires GetsRoom(l, requested, l1, k) && IsPrepared(l, l1, k)
    ensures Granted(l, s, requested, Seat(l1, s, k), BroadcastRoomState(Seat(l1, s, k), k))
  {
    SeatKeeps(l1, s, k);
    BroadcastTellsMembers(Seat(l1, s, k), k);
    assert GrantedAs(l, s, requested, Seat(l1, s, k), BroadcastRoomState(Seat(l1, s, k), k), k);
  }

  lemma JoinIsRefused(l: Lobby, s: Sid, body: seq<byte>, env: Env)
    requires Core(l) && !(|body| == 4 && Joinable(l, ReadI32(body, 0)))
    ensures var o := OnJoinRoom(l, s, body, env.pick);
            && o.Done? && o.lobby == l
            && exists code: nat :: Refuses(l, body, code) && o.effects == [Send(s, Error(CS_JOIN_ROOM, code))]
  {
    var o := OnJoinRoom(l, s, body, env.pick);
    var code := o.effects[0].msg.code;
    assert Refuses(l, body, code);
  }

  // ---- the start of a match -----------------------------------------------------------------------

  /** Room k becomes a match because of s: it has exactly its capacity of distinct ready members, who all
      play from then on; each is told once, after the last room state, with the next match id. */
  ghost predicate BecomesMatch(l: Lobby, s: Sid, o: Outcome, k: int)
    requires o.Done?
  {
    var ms := RoomAt(l, k).members;
    && s in ms && |ms| == GAME_ROOM_CAPACITY && NoDup(ms)
    && (forall m :: m in ms ==> m == s || Get(l, m).ready)
    && (forall m :: m in ms ==> m in o.lobby.players && o.lobby.players[m].state == InGame)
    && o.lobby.nextMatchId == l.nextMatchId + 1
    && |o.effects| == 2 * |ms|
    && o.effects[|ms|..] == SendAll(ms, GameStart(l.nextMatchId, IdsOf(l, ms)))
    && o.effects[..|ms|] == SendAll(ms, RoomState(View(o.lobby, k)))
  }

  ghost predicate IsReady(l: Lobby, job: Job) {
    job.Deliver? && job.s in l.players && GetHandler(l.players[job.s].state, job.packet.id) == Ready
  }

  lemma OthersStartNothing(l: Lobby, job: Job, env: Env, k: int)
    requires Core(l) && PickOk(l, env) && Step(l, job, env).Done? && !IsReady(l, job)
    ensures IsStarted(Step(l, job, env).lobby, k) == IsStarted(l, k)
  {
    match job
    case Connect(s) => ConnectKeeps(l, s);
    case Disconnect(s) => DisconnectKeeps(l, s);
    case Deliver(s, packet) =>
      if s in l.players {
        PacketIsQuiet(l, s, packet, env);
      }
  }

  /** A match starts in one way only: on a CS_READY that makes its sender's game room due. */
  lemma StartsOnlyWhenDue(l: Lobby, job: Job, env: Env, k: int)
    requires Inv(l) && PickOk(l, env) && Step(l, job, env).Done?
    requires !IsStarted(l, k) && IsStarted(Step(l, job, env).lobby, k)
    ensures job.Deliver? && job.packet.id == CS_READY && IsReady(l, job) && BecomesMatch(l, job.s, Step(l, job, env), k)
  {
    if IsReady(l, job) {
      ReadyStarts(l, job.s, job.packet.body, k);
    } else {
      OthersStartNothing(l, job, env, k);
    }
  }

  lemma ReadyStarts(l: Lobby, s: Sid, body: seq<byte>, k: int)
    requires Inv(l) && s in l.players && l.players[s].state == InRoom
    requires !IsStarted(l, k) && IsStarted(OnReady(l, s, body).lobby, k)
    ensures BecomesMatch(l, s, OnReady(l, s, body), k)
  {
    var o := OnReady(l, s, body);
    var ms := RoomAt(l, k).members;
    var l1 := SetPlayer(l, s, l.players[s].(ready := body[0] != 0));
    assert k == l.players[s].room.key && Due(l1, k);
    assert forall m :: m in ms ==> exists i :: 0 <= i < |ms| && ms[i] == m;
    assert forall i :: 0 <= i < |ms| ==> Get(l1, ms[i]).ready;
    assert IdsOf(l1, ms) == IdsOf(l, ms);
    assert View(o.lobby, k) == View(l1, k);
  }

  /** A room stays, with its number; a game room stays one of the same capacity; a started one stays started. */
  ghost predicate RoomStays(l: Lobby, l1: Lobby, k: int) {
    k in l.rooms ==>
      && k in l1.rooms && l1.rooms[k].id == l.rooms[k].id
      && (l.rooms[k].IsGame() ==> l1.rooms[k].capacity == l.rooms[k].capacity)
      && (l.rooms[k].started ==> l1.rooms[k].started)
  }

  lemma EnterKeepsRooms(l: Lobby, s: Sid, body: seq<byte>, k: int)
    requires Core(l) && s in l.players
    ensures RoomStays(l, OnEnterRoom(l, s, body).lobby, k)
  {
    EnterRoomForm(l, s, body);
    if l.players[s].name != [] && |body| >= 4 {
      EnterRoomMoves(l, s, ReadI32(body, 0));
      assert k in l.rooms ==> k in EnterRoom(l, s, ReadI32(body, 0)).rooms.Keys;
    }
    assert RoomAt(OnEnterRoom(l, s, body).lobby, k).id == RoomAt(l, k).id;
  }

  lemma JoinKeepsRooms(l: Lobby, s: Sid, body: seq<byte>, env: Env, k: int)
    requires Core(l) && PickOk(l, env) && s in l.players && l.players[s].state == LoggedIn
    ensures var o := OnJoinRoom(l, s, body, env.pick); o.Done? ==> RoomStays(l, o.lobby, k)
  {
    if |body| == 4 && ReadI32(body, 0) >= 0 {
      AcquireKeeps(l, ReadI32(body, 0), env);
      var a := AcquireGameRoom(l, ReadI32(body, 0), env.pick);
      if a.Acquired? && !RoomAt(a.lobby, a.k).started && !RoomAt(a.lobby, a.k).IsFull() {
        SeatKeeps(a.lobby, s, a.k);
      }
    }
  }

  lemma PacketKeepsRooms(l: Lobby, s: Sid, packet: Packet, env: Env, k: int)
    requires Core(l) && PickOk(l, env) && s in l.players && OnPacket(l, s, packet, env).Done?
    ensures RoomStays(l, OnPacket(l, s, packet, env).lobby, k)
  {
    match GetHandler(l.players[s].state, packet.id)
    case NoHandler =>
    case Login =>
    case EnterRoomHandler => EnterKeepsRooms(l, s, packet.body, k);
    case ChatHandler =>
    case Hello =>
    case JoinRoom => JoinKeepsRooms(l, s, packet.body, env, k);
    case Ready =>
  }

  /** Rooms are never removed, keep their number and kind, and once started stay started. */
  lemma RoomsAreForever(l: Lobby, job: Job, env: Env, k: int)
    requires Core(l) && PickOk(l, env) && Step(l, job, env).Done?
    ensures RoomStays(l, Step(l, job, env).lobby, k)
  {
    match job
    case Connect(s) =>
    case Disconnect(s) => if s in l.players { LeaveForm(l, s); }
    case Deliver(s, packet) =>
      if s in l.players {
        PacketKeepsRooms(l, s, packet, env, k);
      }
  }

  /** While a match runs its player can do nothing: every field stays until the session disconnects. */
  lemma PlayingIsFrozen(l: Lobby, job: Job, env: Env, s: Sid)
    requires Inv(l) && PickOk(l, env) && Step(l, job, env).Done?
    requires s in l.players && l.players[s].state == InGame && job != Disconnect(s)
    ensures var l1 := Step(l, job, env).lobby;
            s in l1.players && l1.players[s] == l.players[s] && l.players[s].room.To? && IsStarted(l1, l.players[s].room.key)
  {
    var k := l.players[s].room.key;
    assert IsStarted(l, k);
    RoomsAreForever(l, job, env, k);
    match job
    case Connect(t) =>
    case Disconnect(t) => if t in l.players { LeaveForm(l, t); }
    case Deliver(t, packet) =>
      if t in l.players && t != s {
        PacketSparesPlaying(l, t, packet, env, s);
      }
  }

  lemma JoinMovesOnlyItsSender(l: Lobby, t: Sid, body: seq<byte>, env: Env)
    requires Core(l) && PickOk(l, env) && t in l.players && l.players[t].state == LoggedIn
    ensures var o := OnJoinRoom(l, t, body, env.pick);
            o.Done? ==>
              && t in o.lobby.players && o.lobby.players == l.players[t := o.lobby.players[t]]
              && o.lobby.players.Keys == l.players.Keys
  {
    if |body| == 4 && ReadI32(body, 0) >= 0 {
      AcquireKeeps(l, ReadI32(body, 0), env);
      var a := AcquireGameRoom(l, ReadI32(body, 0), env.pick);
      if a.Acquired? && !RoomAt(a.lobby, a.k).started && !RoomAt(a.lobby, a.k).IsFull() {
        SeatKeeps(a.lobby, t, a.k);
      }
    }
  }

  lemma PacketSparesPlaying(l: Lobby, t: Sid, packet: Packet, env: Env, s: Sid)
    requires Inv(l) && PickOk(l, env) && OnPacket(l, t, packet, env).Done? && t in l.players && t != s
    requires s in l.players && l.players[s].state == InGame
    ensures var l1 := OnPacket(l, t, packet, env).lobby; s in l1.players && l1.players[s] == l.players[s]
  {
    match GetHandler(l.players[t].state, packet.id)
    case NoHandler =>
    case Login =>
    case EnterRoomHandler =>
      EnterRoomForm(l, t, packet.body);
      EnterRoomKeeps(l, t, packet.body);
      EnterMovesOnlyItsSender(l, t, packet.body);
    case ChatHandler =>
    case Hello =>
    case JoinRoom => JoinMovesOnlyItsSender(l, t, packet.body, env);
    case Ready =>
      var k := l.players[t].room.key;
      if s in RoomAt(l, k).members {
        assert l.players[s].room == To(k);
      }
  }

  lemma EnterRoomMoves(l: Lobby, s: Sid, k: int)
    requires Linked(l) && s in l.players
    ensures var l1 := EnterRoom(l, s, k);
            && l1.players == l.players[s := l.players[s].(room := To(k))]
            && l1.rooms.Keys == l.rooms.Keys + {k}
            && l1.nextGameRoomId == l.nextGameRoomId
  {
    LeaveForm(l, s);
    LeaveLinked(l, s);
    CreateLinked(LeaveCurrent(l, s), k);
    JoinForm(GetOrCreateRoom(LeaveCurrent(l, s), k), s, k);
  }

  lemma CreateLinked(l: Lobby, k: int)
    requires Linked(l)
    ensures var l1 := GetOrCreateRoom(l, k); Linked(l1) && k in l1.rooms && l1.rooms.Keys == l.rooms.Keys + {k}
  {
  }

  lemma EnterMovesOnlyItsSender(l: Lobby, t: Sid, body: seq<byte>)
    requires Linked(l) && t in l.players
    ensures var l1 := OnEnterRoom(l, t, body).lobby;
            && t in l1.players && l1.players == l.players[t := l1.players[t]]
            && l1.players.Keys == l.players.Keys
  {
    if l.players[t].name != [] && |body| >= 4 {
      EnterRoomMoves(l, t, ReadI32(body, 0));
    }
  }

  // ---- who is spoken to ---------------------------------------------------------------------------

  /** Every effect of a job is for the session the job came from or for a player in some room, and
      always for a player who is still there afterwards. */
  ghost predicate Addressed(l1: Lobby, job: Job, fx: seq<Effect>) {
    forall i :: 0 <= i < |fx| ==>
      && fx[i].to in l1.players
      && ((job.Deliver? && fx[i].to == job.s) || l1.players[fx[i].to].room.To?)
  }

  lemma RoomIsAddressed(l1: Lobby, job: Job, k: int, ms: seq<Sid>, msg: Msg)
    requires Linked(l1) && k in l1.rooms && forall i :: 0 <= i < |ms| ==> ms[i] in l1.rooms[k].members
    ensures Addressed(l1, job, SendAll(ms, msg))
  {
  }

  lemma ChatIsAddressed(l: Lobby, s: Sid, body: seq<byte>, job: Job)
    requires Core(l) && s in l.players && l.players[s].state == InRoom
    ensures Addressed(l, job, OnChat(l, s, body).effects)
  {
    var k := l.players[s].room.key;
    var others := Others(l.rooms[k].members, s);
    OthersFacts(l.rooms[k].members, s);
    assert forall i :: 0 <= i < |others| ==> others[i] in others;
    var p := l.players[s];
    if p.name != [] && body != [] && CHAT_OVERHEAD + |p.name| < MAX_PACKET_SIZE {
      RoomIsAddressed(l, job, k, others, Chat(p.id, p.name, Clip(p.name, body)));
    }
  }

  lemma SeatIsAddressed(l: Lobby, s: Sid, k: int, job: Job)
    requires Core(l) && s in l.players && l.players[s].state == LoggedIn && k in l.rooms
    ensures Addressed(Seat(l, s, k), job, BroadcastRoomState(Seat(l, s, k), k))
  {
    SeatKeeps(l, s, k);
    var l1 := Seat(l, s, k);
    RoomIsAddressed(l1, job, k, l1.rooms[k].members, RoomState(View(l1, k)));
  }

  lemma JoinIsAddressed(l: Lobby, s: Sid, packet: Packet, env: Env)
    requires Core(l) && PickOk(l, env) && s in l.players && l.players[s].state == LoggedIn
    ensures var o := OnJoinRoom(l, s, packet.body, env.pick); o.Done? ==> Addressed(o.lobby, Deliver(s, packet), o.effects)
  {
    var body := packet.body;
    if |body| == 4 && ReadI32(body, 0) >= 0 {
      AcquireKeeps(l, ReadI32(body, 0), env);
      var a := AcquireGameRoom(l, ReadI32(body, 0), env.pick);
      if a.Acquired? && !RoomAt(a.lobby, a.k).started && !RoomAt(a.lobby, a.k).IsFull() {
        SeatIsAddressed(a.lobby, s, a.k, Deliver(s, packet));
      }
    }
  }

  lemma ReadyIsAddressed(l: Lobby, s: Sid, packet: Packet)
    requires Core(l) && s in l.players && l.players[s].state == InRoom
    ensures var o := OnReady(l, s, packet.body); Addressed(o.lobby, Deliver(s, packet), o.effects)
  {
    var p := l.players[s];
    var k := p.room.key;
    if !RoomAt(l, k).started && |packet.body| == 1 {
      var l1 := SetPlayer(l, s, p.(ready := packet.body[0] != 0));
      EditPlayer(l, s, p.(ready := packet.body[0] != 0));
      if Due(l1, k) {
        StartKeeps(l1, k);
      }
      var l2 := TryStartGame(l1, k);
      var ms := l1.rooms[k].members;
      RoomIsAddressed(l2, Deliver(s, packet), k, ms, RoomState(View(l1, k)));
      RoomIsAddressed(l2, Deliver(s, packet), k, ms, GameStart(l1.nextMatchId, IdsOf(l1, ms)));
    }
  }

  lemma DisconnectIsAddressed(l: Lobby, s: Sid)
    requires Core(l)
    ensures var o := OnDisconnect(l, s); Addressed(o.lobby, Disconnect(s), o.effects)
  {
    if s in l.players {
      DisconnectKeeps(l, s);
      LeaveForm(l, s);
      var o := OnDisconnect(l, s);
      if l.players[s].room.To? {
        var k := l.players[s].room.key;
        RoomIsAddressed(o.lobby, Disconnect(s), k, o.lobby.rooms[k].members, RoomState(View(o.lobby, k)));
      }
    }
  }

  lemma StepIsAddressed(l: Lobby, job: Job, env: Env)
    requires Core(l) && PickOk(l, env)
    ensures var o := Step(l, job, env); o.Done? ==> Addressed(o.lobby, job, o.effects)
  {
    match job
    case Connect(s) =>
    case Disconnect(s) => DisconnectIsAddressed(l, s);
    case Deliver(s, packet) =>
      if s in l.players {
        match GetHandler(l.players[s].state, packet.id)
        case NoHandler =>
        case Login =>
        case EnterRoomHandler =>
        case ChatHandler => ChatIsAddressed(l, s, packet.body, job);
        case Hello =>
        case JoinRoom => JoinIsAddressed(l, s, packet, env);
        case Ready => ReadyIsAddressed(l, s, packet);
      }
  }

  /** After its Disconnect a session is gone: no player, no room lists it, no effect is for it. */
  lemma DisconnectLeavesNoTrace(l: Lobby, s: Sid)
    requires Core(l)
    ensures var o := OnDisconnect(l, s);
            && s !in o.lobby.players
            && (forall k :: k in o.lobby.rooms ==> s !in o.lobby.rooms[k].members)
            && (forall i :: 0 <= i < |o.effects| ==> o.effects[i].to != s)
  {
    DisconnectKeeps(l, s);
    DisconnectIsAddressed(l, s);
  }

  /** Only a Connect brings a session in and only its Disconnect takes it out. */
  lemma WhoComesAndGoes(l: Lobby, job: Job, env: Env)
    requires Core(l) && PickOk(l, env) && Step(l, job, env).Done?
    ensures Step(l, job, env).lobby.players.Keys ==
            match job {
              case Connect(s) => l.players.Keys + {s}
              case Disconnect(s) => l.players.Keys - {s}
              case Deliver(_, _) => l.players.Keys
            }
  {
    match job
    case Connect(s) =>
    case Disconnect(s) => if s in l.players { LeaveForm(l, s); }
    case Deliver(s, packet) =>
      if s in l.players {
        match GetHandler(l.players[s].state, packet.id)
        case NoHandler =>
        case Login =>
        case EnterRoomHandler => EnterMovesOnlyItsSender(l, s, packet.body);
        case ChatHandler =>
        case Hello =>
        case JoinRoom => JoinMovesOnlyItsSender(l, s, packet.body, env);
        case Ready =>
      }
  }

  /** A player's seat is its own affair: no other session's job adds, removes, seats or unseats it. */
  lemma OthersKeepTheirSeats(l: Lobby, job: Job, env: Env, s: Sid)
    requires Core(l) && PickOk(l, env) && Step(l, job, env).Done? && s != job.s
    ensures var l1 := Step(l, job, env).lobby;
            && (s in l1.players <==> s in l.players)
            && (s in l.players ==> l1.players[s].room == l.players[s].room)
  {
    match job
    case Connect(_) =>
    case Disconnect(t) => if t in l.players { LeaveForm(l, t); }
    case Deliver(t, packet) =>
      if t in l.players {
        match GetHandler(l.players[t].state, packet.id)
        case NoHandler =>
        case Login =>
        case EnterRoomHandler => EnterMovesOnlyItsSender(l, t, packet.body);
        case ChatHandler =>
        case Hello =>
        case JoinRoom => JoinMovesOnlyItsSender(l, t, packet.body, env);
        case Ready =>
      }
  }

  // ---- chat ---------------------------------------------------------------------------------------

  ghost function TimesSentTo(fx: seq<Effect>, m: Sid): nat {
    if fx == [] then 0 else TimesSentTo(fx[1..], m) + if fx[0].to == m then 1 else 0
  }

  lemma {:induction false} SentOnceEach(ms: seq<Sid>, s: Sid, msg: Msg, m: Sid)
    requires NoDup(ms)
    ensures TimesSentTo(SendAll(Others(ms, s), msg), m) == if m in ms && m != s then 1 else 0
  {
    if ms == [] {
    } else {
      SentOnceEach(ms[1..], s, msg, m);
      assert ms == [ms[0]] + ms[1..];
      var fx := SendAll(Others(ms, s), msg);
      if ms[0] != s {
        assert fx[1..] == SendAll(Others(ms[1..], s), msg);
      }
    }
  }

  /** The members of a room are the players whose pointer is to it. */
  lemma MembersOf(l: Lobby, k: int, m: Sid)
    requires Linked(l) && k in l.rooms
    ensures m in l.rooms[k].members <==> m in l.players && l.players[m].room == To(k)
  {
  }

  /** A chat reaches each other member of the sender's room exactly once and nobody else, clipped
      to what fits; it changes nothing. */
  lemma ChatReachesTheRoom(l: Lobby, s: Sid, body: seq<byte>, m: Sid)
    requires Core(l) && s in l.players && l.players[s].state == InRoom
    requires l.players[s].name != [] && body != [] && CHAT_OVERHEAD + |l.players[s].name| < MAX_PACKET_SIZE
    ensures var o := OnChat(l, s, body);
            && o.lobby == l
            && TimesSentTo(o.effects, m) == (if m in l.players && m != s && l.players[m].room == l.players[s].room then 1 else 0)
            && (forall i :: 0 <= i < |o.effects| ==>
                  o.effects[i] == Send(o.effects[i].to, Chat(l.players[s].id, l.players[s].name, Clip(l.players[s].name, body))))
  {
    var p := l.players[s];
    var k := p.room.key;
    var chat := Chat(p.id, p.name, Clip(p.name, body));
    MembersOf(l, k, m);
    SentOnceEach(l.rooms[k].members, s, chat, m);
    assert OnChat(l, s, body) == Done(l, SendAll(Others(l.rooms[k].members, s), chat));
  }

  // ---- room numbers -------------------------------------------------------------------------------

  /** The room a packet names. */
  ghost predicate Names(job: Job, k: int) {
    && job.Deliver? && |job.packet.body| >= 4 && k == ReadI32(job.packet.body, 0)
    && (job.packet.id == CS_ENTER_ROOM || job.packet.id == CS_JOIN_ROOM)
  }

  /** Clients name no room number that automatic assignment has yet to give out; numbers below 100 never are. */
  ghost predicate Modest(l: Lobby, job: Job) {
    forall k :: Names(job, k) ==> k < l.nextGameRoomId
  }

  ghost predicate RoomsBelow(l: Lobby) {
    forall k :: k in l.rooms ==> k < l.nextGameRoomId
  }

  /** A job dangles exactly when automatic assignment finds no open room and its next number taken. */
  lemma DanglesIff(l: Lobby, job: Job, env: Env)
    requires Core(l) && PickOk(l, env)
    ensures Step(l, job, env).Dangling? <==>
            && Names(job, 0) && job.packet.id == CS_JOIN_ROOM && |job.packet.body| == 4
            && job.s in l.players && l.players[job.s].state == LoggedIn
            && NoneToGive(l)
  {
    if job.Deliver? && job.s in l.players && GetHandler(l.players[job.s].state, job.packet.id) == JoinRoom {
      var body := job.packet.body;
      if |body| == 4 && ReadI32(body, 0) == 0 {
        assert Names(job, 0);
        match env.pick
        case To(k) => assert HasSeat(l.rooms[k]);
        case Null => assert forall k :: k in l.rooms && HasSeat(l.rooms[k]) ==> l.rooms[k].IsOpen();
      }
    }
  }

  lemma RoomsStayBelow(l: Lobby, job: Job, env: Env)
    requires Core(l) && PickOk(l, env) && RoomsBelow(l) && Modest(l, job)
    ensures Step(l, job, env).Done? && RoomsBelow(Step(l, job, env).lobby)
  {
    match job
    case Connect(s) =>
    case Disconnect(s) => if s in l.players { LeaveForm(l, s); }
    case Deliver(s, packet) =>
      if s in l.players {
        match GetHandler(l.players[s].state, packet.id)
        case NoHandler =>
        case Login =>
        case EnterRoomHandler => EnterStaysBelow(l, s, packet);
        case ChatHandler =>
        case Hello =>
        case JoinRoom => JoinStaysBelow(l, s, packet, env);
        case Ready =>
      }
  }

  lemma EnterStaysBelow(l: Lobby, s: Sid, packet: Packet)
    requires Core(l) && RoomsBelow(l) && Modest(l, Deliver(s, packet)) && s in l.players && packet.id == CS_ENTER_ROOM
    ensures RoomsBelow(OnEnterRoom(l, s, packet.body).lobby)
    ensures OnEnterRoom(l, s, packet.body).lobby.nextGameRoomId == l.nextGameRoomId
  {
    if l.players[s].name != [] && |packet.body| >= 4 {
      var k := ReadI32(packet.body, 0);
      assert Names(Deliver(s, packet), k);
      EnterRoomMoves(l, s, k);
      assert forall r :: r in EnterRoom(l, s, k).rooms <==> r in EnterRoom(l, s, k).rooms.Keys;
    }
  }

  lemma JoinStaysBelow(l: Lobby, s: Sid, packet: Packet, env: Env)
    requires Core(l) && PickOk(l, env) && RoomsBelow(l) && Modest(l, Deliver(s, packet)) && packet.id == CS_JOIN_ROOM
    requires s in l.players && l.players[s].state == LoggedIn
    ensures var o := OnJoinRoom(l, s, packet.body, env.pick); o.Done? && RoomsBelow(o.lobby)
  {
    var body := packet.body;
    if |body| == 4 && ReadI32(body, 0) >= 0 {
      assert Names(Deliver(s, packet), ReadI32(body, 0));
      AcquireKeeps(l, ReadI32(body, 0), env);
      var a := AcquireGameRoom(l, ReadI32(body, 0), env.pick);
      if a.Acquired? && !RoomAt(a.lobby, a.k).started && !RoomAt(a.lobby, a.k).IsFull() {
        SeatKeeps(a.lobby, s, a.k);
      }
    }
  }

  // ---- whole runs ---------------------------------------------------------------------------------

  datatype RunState = Running(lobby: Lobby, views: map<Sid, RoomView>) | Broken

  /** The game thread after these jobs, and what each session was last shown. */
  ghost function After(jobs: seq<Job>, envs: seq<Env>): RunState
    requires |jobs| == |envs|
  {
    if jobs == [] then Running(INITIAL, map[])
    else
      match After(jobs[..|jobs| - 1], envs[..|jobs| - 1])
      case Broken => Broken
      case Running(l, views) =>
        match Step(l, jobs[|jobs| - 1], envs[|jobs| - 1])
        case Dangling => Broken
        case Done(l1, fx) => Running(l1, Shown(views, fx))
  }

  /** In every prefix of the run, P holds of the lobby, the next job and its environment. */
  ghost predicate Throughout(jobs: seq<Job>, envs: seq<Env>, P: (Lobby, Job, Env) -> bool)
    requires |jobs| == |envs|
  {
    forall i :: 0 <= i < |jobs| && After(jobs[..i], envs[..i]).Running? ==> P(After(jobs[..i], envs[..i]).lobby, jobs[i], envs[i])
  }

  ghost predicate PicksOk(jobs: seq<Job>, envs: seq<Env>)
    requires |jobs| == |envs|
  {
    Throughout(jobs, envs, (l: Lobby, job: Job, env: Env) => PickOk(l, env))
  }

  lemma ThroughoutPrefix(jobs: seq<Job>, envs: seq<Env>, P: (Lobby, Job, Env) -> bool)
    requires |jobs| == |envs| && jobs != [] && Throughout(jobs, envs, P)
    ensures var n := |jobs| - 1;
            && Throughout(jobs[..n], envs[..n], P)
            && (After(jobs[..n], envs[..n]).Running? ==> P(After(jobs[..n], envs[..n]).lobby, jobs[n], envs[n]))
  {
    var n := |jobs| - 1;
    forall i | 0 <= i < n
      ensures jobs[..n][..i] == jobs[..i] && envs[..n][..i] == envs[..i]
    {
    }
  }

  /** Over every run: membership, states, ids, room shapes and match accounting. */
  lemma {:induction false} RunKeepsInv(jobs: seq<Job>, envs: seq<Env>)
    requires |jobs| == |envs| && PicksOk(jobs, envs)
    ensures After(jobs, envs).Running? ==> Inv(After(jobs, envs).lobby)
  {
    if jobs == [] {
      InitialInv();
    } else {
      var n := |jobs| - 1;
      ThroughoutPrefix(jobs, envs, (l: Lobby, job: Job, env: Env) => PickOk(l, env));
      RunKeepsInv(jobs[..n], envs[..n]);
      if After(jobs, envs).Running? {
        StepKeepsInv(After(jobs[..n], envs[..n]).lobby, jobs[n], envs[n]);
      }
    }
  }

  /** Over every run of modest clients no room pointer dangles. */
  lemma {:induction false} RunNeverDangles(jobs: seq<Job>, envs: seq<Env>)
    requires |jobs| == |envs| && PicksOk(jobs, envs)
    requires Throughout(jobs, envs, (l: Lobby, job: Job, env: Env) => Modest(l, job))
    ensures After(jobs, envs).Running? && RoomsBelow(After(jobs, envs).lobby)
  {
    if jobs != [] {
      var n := |jobs| - 1;
      ThroughoutPrefix(jobs, envs, (l: Lobby, job: Job, env: Env) => PickOk(l, env));
      ThroughoutPrefix(jobs, envs, (l: Lobby, job: Job, env: Env) => Modest(l, job));
      RunNeverDangles(jobs[..n], envs[..n]);
      RunKeepsInv(jobs[..n], envs[..n]);
      RoomsStayBelow(After(jobs[..n], envs[..n]).lobby, jobs[n], envs[n]);
    }
  }

  /** Over every run of polite clients: capacity, isolation, eager start and consistent views. */
  lemma {:induction false} RunKeepsGood(jobs: seq<Job>, envs: seq<Env>)
    requires |jobs| == |envs| && PicksOk(jobs, envs)
    requires Throughout(jobs, envs, (l: Lobby, job: Job, env: Env) => Polite(l, job))
    ensures var r := After(jobs, envs); r.Running? ==> Good(r.lobby, r.views) && ViewsAreTrue(r.lobby, r.views)
  {
    if jobs == [] {
      InitialInv();
    } else {
      var n := |jobs| - 1;
      ThroughoutPrefix(jobs, envs, (l: Lobby, job: Job, env: Env) => PickOk(l, env));
      ThroughoutPrefix(jobs, envs, (l: Lobby, job: Job, env: Env) => Polite(l, job));
      RunKeepsGood(jobs[..n], envs[..n]);
      var r := After(jobs[..n], envs[..n]);
      if r.Running? {
        StepKeepsGood(r.lobby, r.views, jobs[n], envs[n]);
      }
    }
  }

  /** The same run, cut before its last job. */
  lemma Prefixes(jobs: seq<Job>, envs: seq<Env>, i: nat)
    requires |jobs| == |envs| && i < |jobs|
    ensures var n := |jobs| - 1;
            && jobs[..n][..i] == jobs[..i] && envs[..n][..i] == envs[..i]
            && (forall job :: job !in jobs[i..] ==> job !in jobs[..n][i..] && job != jobs[n])
  {
    var n := |jobs| - 1;
    assert forall j :: 0 <= j < n - i ==> jobs[..n][i..][j] == jobs[i..][j];
    assert jobs[n] == jobs[i..][n - i];
  }

  /** Once in a match, a player is the same player at the end of any run without its Disconnect. */
  lemma {:induction false} MatchLastsUntilDisconnect(jobs: seq<Job>, envs: seq<Env>, i: nat, s: Sid)
    requires |jobs| == |envs| && PicksOk(jobs, envs) && i <= |jobs|
    requires After(jobs[..i], envs[..i]).Running? && After(jobs, envs).Running?
    requires var l := After(jobs[..i], envs[..i]).lobby; s in l.players && l.players[s].state == InGame
    requires Disconnect(s) !in jobs[i..]
    ensures var l := After(jobs[..i], envs[..i]).lobby;
            var l1 := After(jobs, envs).lobby;
            s in l1.players && l1.players[s] == l.players[s]
    decreases |jobs|
  {
    if i == |jobs| {
      assert jobs[..i] == jobs && envs[..i] == envs;
    } else {
      var n := |jobs| - 1;
      ThroughoutPrefix(jobs, envs, (l: Lobby, job: Job, env: Env) => PickOk(l, env));
      Prefixes(jobs, envs, i);
      MatchLastsUntilDisconnect(jobs[..n], envs[..n], i, s);
      RunKeepsInv(jobs[..n], envs[..n]);
      PlayingIsFrozen(After(jobs[..n], envs[..n]).lobby, jobs[n], envs[n], s);
    }
  }
}
