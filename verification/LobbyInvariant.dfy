/** What every job keeps, whatever clients send: membership, the state machine, ids, rooms, matches. */
module LobbyInvariant {
  import opened Bytes
  import opened Framing
  import opened Protocol
  import opened Lobby

  // ---- member lists -----------------------------------------------------------------------------

  ghost predicate NoDup(ms: seq<Sid>) {
    forall i, j :: 0 <= i < j < |ms| ==> ms[i] != ms[j]
  }

  lemma {:induction false} RemoveFacts(ms: seq<Sid>, s: Sid)
    requires NoDup(ms)
    ensures NoDup(Remove(ms, s))
    ensures forall m :: m in Remove(ms, s) <==> m in ms && m != s
    ensures |Remove(ms, s)| == if s in ms then |ms| - 1 else |ms|
  {
    if ms == [] {
    } else if ms[0] == s {
    } else {
      var tail := Remove(ms[1..], s);
      RemoveFacts(ms[1..], s);
      assert ms == [ms[0]] + ms[1..];
      assert ms[0] !in tail;
      assert Remove(ms, s) == [ms[0]] + tail;
    }
  }

  lemma AppendFacts(ms: seq<Sid>, s: Sid)
    requires NoDup(ms) && s !in ms
    ensures NoDup(ms + [s])
    ensures forall m :: m in ms + [s] <==> m in ms || m == s
  {
  }

  // ---- the invariant ----------------------------------------------------------------------------

  /** A session is in a room's list exactly when its player's room pointer is that room, once;
      every listed player is live. */
  ghost predicate Linked(l: Lobby) {
    && (forall k, m :: k in l.rooms && m in l.rooms[k].members ==> m in l.players && l.players[m].room == To(k))
    && (forall s :: s in l.players && l.players[s].room.To? ==>
          l.players[s].room.key in l.rooms && s in l.rooms[l.players[s].room.key].members)
    && (forall k :: k in l.rooms ==> NoDup(l.rooms[k].members))
  }

  /** In a room is exactly InRoom or InGame; nobody is ever Closing. */
  ghost predicate Agree(l: Lobby) {
    forall s :: s in l.players ==>
      && (l.players[s].room.To? <==> l.players[s].state in {InRoom, InGame})
      && l.players[s].state != Closing
  }

  ghost predicate Ids(l: Lobby) {
    && (forall s :: s in l.players ==> 1 <= l.players[s].id < l.nextPlayerId)
    && (forall s, t :: s in l.players && t in l.players && s != t ==> l.players[s].id != l.players[t].id)
    && 1 <= l.nextPlayerId
  }

  ghost predicate RoomShapes(l: Lobby) {
    forall k :: k in l.rooms ==>
      var r := l.rooms[k];
      && r.id == k % 65536
      && (r.capacity == 0 || (r.capacity == GAME_ROOM_CAPACITY && k >= 1))
      && (r.started ==> r.capacity == GAME_ROOM_CAPACITY)
  }

  /** Whoever plays sits in a started room. */
  ghost predicate Seated(l: Lobby) {
    forall s :: s in l.players && l.players[s].state == InGame && l.players[s].room.To? ==>
      RoomAt(l, l.players[s].room.key).started
  }

  ghost predicate Core(l: Lobby) {
    Linked(l) && Agree(l) && Ids(l) && RoomShapes(l) && Seated(l) && FIRST_GAME_ROOM <= l.nextGameRoomId
  }

  ghost predicate IsStarted(l: Lobby, k: int) {
    k in l.rooms && l.rooms[k].started
  }

  ghost predicate IsPlaying(l: Lobby, k: int, m: Sid) {
    k in l.rooms && m in l.rooms[k].members && Get(l, m).state == InGame
  }

  ghost function StartedRooms(l: Lobby): set<int> {
    set k | k in l.rooms && IsStarted(l, k)
  }

  ghost function Playing(l: Lobby, k: int): set<Sid> {
    set m | m in RoomAt(l, k).members && IsPlaying(l, k, m)
  }

  /** As many rooms have started as match ids were handed out, and no room holds more than two who play. */
  ghost predicate Matches(l: Lobby) {
    && |StartedRooms(l)| == l.nextMatchId - 1
    && (forall k :: k in l.rooms ==> |Playing(l, k)| <= 2)
  }

  ghost predicate Inv(l: Lobby) {
    Core(l) && Matches(l)
  }

  // ---- match accounting -------------------------------------------------------------------------

  lemma SubsetIsNoLarger<T>(a: set<T>, b: set<T>)
    requires a <= b
    ensures |a| <= |b|
  {
    assert b == a + (b - a);
  }

  /** No room starts and nobody begins to play. */
  ghost predicate Quiet(l: Lobby, l1: Lobby) {
    && l1.nextMatchId == l.nextMatchId
    && (forall k :: IsStarted(l1, k) == IsStarted(l, k))
    && (forall k, m :: IsPlaying(l1, k, m) ==> IsPlaying(l, k, m))
  }

  lemma QuietKeepsMatches(l: Lobby, l1: Lobby)
    requires Matches(l) && Quiet(l, l1)
    ensures Matches(l1)
  {
    forall k
      ensures k in StartedRooms(l1) <==> k in StartedRooms(l)
    {
      assert IsStarted(l1, k) == IsStarted(l, k);
    }
    assert StartedRooms(l1) == StartedRooms(l);
    forall k | k in l1.rooms
      ensures |Playing(l1, k)| <= 2
    {
      forall m | m in Playing(l1, k)
        ensures m in Playing(l, k)
      {
        assert IsPlaying(l1, k, m) && IsPlaying(l, k, m);
      }
      if k in l.rooms {
        SubsetIsNoLarger(Playing(l1, k), Playing(l, k));
      } else {
        assert Playing(l, k) == {};
      }
    }
  }

  lemma StartMatches(l: Lobby, k: int)
    requires Core(l) && Matches(l) && k in l.rooms && Due(l, k)
    ensures Matches(Started(l, k))
  {
    StartAddsOne(l, k);
    forall r | r in l.rooms
      ensures |Playing(Started(l, k), r)| <= 2
    {
      if r == k {
        StartSeatsTwo(l, k);
      } else {
        StartElsewhere(l, k, r);
      }
    }
  }

  lemma StartAddsOne(l: Lobby, k: int)
    requires k in l.rooms && !l.rooms[k].started
    ensures |StartedRooms(Started(l, k))| == |StartedRooms(l)| + 1
  {
    var l1 := Started(l, k);
    forall r
      ensures r in StartedRooms(l1) <==> r in StartedRooms(l) || r == k
    {
      assert IsStarted(l1, r) <==> IsStarted(l, r) || r == k;
    }
    assert StartedRooms(l1) == StartedRooms(l) + {k};
    assert !IsStarted(l, k);
  }

  lemma StartSeatsTwo(l: Lobby, k: int)
    requires k in l.rooms && |l.rooms[k].members| == 2
    ensures |Playing(Started(l, k), k)| <= 2
  {
    var ms := l.rooms[k].members;
    forall m | m in Playing(Started(l, k), k)
      ensures m in {ms[0], ms[1]}
    {
    }
    SubsetIsNoLarger(Playing(Started(l, k), k), {ms[0], ms[1]});
  }

  lemma StartElsewhere(l: Lobby, k: int, r: int)
    requires Linked(l) && k in l.rooms && r in l.rooms && r != k
    ensures Playing(Started(l, k), r) == Playing(l, r)
  {
    var l1 := Started(l, k);
    forall m | m in l.rooms[r].members
      ensures IsPlaying(l1, r, m) == IsPlaying(l, r, m)
    {
      assert m in l.players && l.players[m].room == To(r);
      assert m !in l.rooms[k].members;
    }
  }

  // ---- one player changes in place --------------------------------------------------------------

  /** Name and ready flag are free; a player outside every room may move between Start and LoggedIn. */
  lemma EditPlayer(l: Lobby, s: Sid, p: Player)
    requires Core(l) && s in l.players
    requires p.id == l.players[s].id && p.room == l.players[s].room
    requires p.state == l.players[s].state || (p.room.Null? && p.state in {Start, LoggedIn})
    ensures Core(SetPlayer(l, s, p)) && Quiet(l, SetPlayer(l, s, p))
  {
  }

  // ---- leaving and joining ----------------------------------------------------------------------

  lemma LeaveForm(l: Lobby, s: Sid)
    requires Linked(l) && s in l.players
    ensures var l1 := LeaveCurrent(l, s);
            var p := l.players[s];
            && l1.players == l.players[s := p.(room := Null)]
            && l1.rooms == (if p.room.To?
                            then var r := l.rooms[p.room.key]; l.rooms[p.room.key := r.(members := Remove(r.members, s))]
                            else l.rooms)
            && l1.nextPlayerId == l.nextPlayerId && l1.nextGameRoomId == l.nextGameRoomId && l1.nextMatchId == l.nextMatchId
  {
    var p := l.players[s];
    if p.room.Null? {
      assert l.players[s := p.(room := Null)] == l.players;
    }
  }

  lemma LeaveLinked(l: Lobby, s: Sid)
    requires Linked(l) && s in l.players
    ensures Linked(LeaveCurrent(l, s))
  {
    LeaveForm(l, s);
    var p := l.players[s];
    if p.room.To? {
      RemoveFacts(l.rooms[p.room.key].members, s);
    }
  }

  lemma JoinForm(l: Lobby, s: Sid, k: int)
    requires Linked(l) && s in l.players && l.players[s].room.Null? && k in l.rooms
    ensures var l1 := Join(l, s, k);
            var r := l.rooms[k];
            && s !in r.members
            && l1 == l.(players := l.players[s := l.players[s].(room := To(k))], rooms := l.rooms[k := r.(members := r.members + [s])])
    ensures Linked(Join(l, s, k))
  {
    AppendFacts(l.rooms[k].members, s);
  }

  /** Everyone but s agrees; s stands outside the rooms, whatever state it is still in. */
  ghost predicate CoreBut(l: Lobby, s: Sid) {
    && Linked(l) && Ids(l) && RoomShapes(l) && FIRST_GAME_ROOM <= l.nextGameRoomId
    && s in l.players && l.players[s].room.Null?
    && (forall t :: t in l.players && t != s ==>
          && (l.players[t].room.To? <==> l.players[t].state in {InRoom, InGame})
          && l.players[t].state != Closing
          && (l.players[t].state == InGame && l.players[t].room.To? ==> RoomAt(l, l.players[t].room.key).started))
  }

  lemma LeaveIsQuiet(l: Lobby, s: Sid)
    requires Linked(l) && s in l.players
    ensures Quiet(l, LeaveCurrent(l, s))
  {
    LeaveForm(l, s);
    if l.players[s].room.To? {
      RemoveFacts(l.rooms[l.players[s].room.key].members, s);
    }
  }

  lemma LeaveKeeps(l: Lobby, s: Sid)
    requires Core(l) && s in l.players
    ensures CoreBut(LeaveCurrent(l, s), s) && Quiet(l, LeaveCurrent(l, s))
  {
    LeaveIsQuiet(l, s);
    LeaveLinked(l, s);
    LeaveForm(l, s);
  }

  lemma SitIsQuiet(l: Lobby, s: Sid, k: int, p: Player)
    requires Linked(l) && s in l.players && l.players[s].room.Null? && k in l.rooms
    requires p.state == InRoom
    ensures Quiet(l, SetPlayer(Join(l, s, k), s, p))
  {
    JoinForm(l, s, k);
  }

  /** A player outside every room takes a seat and is InRoom. */
  lemma SitKeeps(l: Lobby, s: Sid, k: int, p: Player)
    requires CoreBut(l, s) && k in l.rooms
    requires p.id == l.players[s].id && p.room == To(k) && p.state == InRoom
    ensures Core(SetPlayer(Join(l, s, k), s, p)) && Quiet(l, SetPlayer(Join(l, s, k), s, p))
  {
    SitIsQuiet(l, s, k, p);
    JoinForm(l, s, k);
    AppendFacts(l.rooms[k].members, s);
  }

  // ---- rooms come and change --------------------------------------------------------------------

  /** A new empty chat room under a key not used yet. */
  lemma NewRoomKeepsBut(l: Lobby, s: Sid, k: int)
    requires CoreBut(l, s) && k !in l.rooms
    ensures var l1 := SetRoom(l, k, NewRoom(k)); CoreBut(l1, s) && Quiet(l, l1)
  {
  }

  /** A new empty game room, or an empty chat room turned into one. */
  lemma GameRoomKeeps(l: Lobby, k: int, r: Room)
    requires Core(l) && k >= 1
    requires if k in l.rooms then !l.rooms[k].started && r == l.rooms[k].(capacity := GAME_ROOM_CAPACITY) else r == NewGameRoom(k)
    ensures Core(SetRoom(l, k, r)) && Quiet(l, SetRoom(l, k, r))
  {
  }

  lemma NextRoomId(l: Lobby)
    requires Core(l)
    ensures var l1 := l.(nextGameRoomId := l.nextGameRoomId + 1); Core(l1) && Quiet(l, l1)
  {
  }

  lemma AcquireKeeps(l: Lobby, requested: int, env: Env)
    requires Core(l) && PickOk(l, env) && requested >= 0
    ensures var a := AcquireGameRoom(l, requested, env.pick);
            a.Acquired? ==>
              && Core(a.lobby) && Quiet(l, a.lobby) && a.lobby.players == l.players
              && a.k in a.lobby.rooms && a.lobby.rooms[a.k].IsGame()
              && (a.lobby != l ==> a.lobby.rooms[a.k].IsOpen())
  {
    var a := AcquireGameRoom(l, requested, env.pick);
    if a.Acquired? && a.lobby != l {
      if requested == 0 {
        GameRoomKeeps(l, a.k, NewGameRoom(a.k));
        NextRoomId(SetRoom(l, a.k, NewGameRoom(a.k)));
      } else {
        GameRoomKeeps(l, requested, a.lobby.rooms[requested]);
      }
    }
  }

  // ---- handlers ---------------------------------------------------------------------------------

  lemma EnterRoomKeeps(l: Lobby, s: Sid, body: seq<byte>)
    requires Core(l) && s in l.players && l.players[s].state in {LoggedIn, InRoom}
    ensures Core(OnEnterRoom(l, s, body).lobby) && Quiet(l, OnEnterRoom(l, s, body).lobby)
  {
    var p := l.players[s];
    if p.name == [] || |body| < 4 {
      assert SetPlayer(l, s, p) == l;
    } else {
      var k := ReadI32(body, 0);
      LeaveKeeps(l, s);
      var left := LeaveCurrent(l, s);
      if k !in left.rooms {
        NewRoomKeepsBut(left, s, k);
      }
      var ready := GetOrCreateRoom(left, k);
      JoinForm(ready, s, k);
      SitKeeps(ready, s, k, Get(Join(ready, s, k), s).(state := InRoom));
    }
  }

  lemma SeatKeeps(l: Lobby, s: Sid, k: int)
    requires Core(l) && s in l.players && l.players[s].state == LoggedIn && k in l.rooms
    ensures Core(Seat(l, s, k)) && Quiet(l, Seat(l, s, k))
    ensures var p := l.players[s];
            && p.room.Null?
            && s !in l.rooms[k].members
            && Seat(l, s, k) == l.(players := l.players[s := p.(ready := false, room := To(k), state := InRoom)],
                                   rooms := l.rooms[k := l.rooms[k].(members := l.rooms[k].members + [s])])
  {
    var p := l.players[s].(ready := false);
    EditPlayer(l, s, p);
    var unready := SetPlayer(l, s, p);
    JoinForm(unready, s, k);
    SitKeeps(unready, s, k, Get(Join(unready, s, k), s).(state := InRoom));
  }

  lemma JoinRoomKeeps(l: Lobby, s: Sid, body: seq<byte>, env: Env)
    requires Core(l) && PickOk(l, env) && s in l.players && l.players[s].state == LoggedIn
    ensures var o := OnJoinRoom(l, s, body, env.pick); o.Done? ==> Core(o.lobby) && Quiet(l, o.lobby)
  {
    if |body| == 4 && ReadI32(body, 0) >= 0 {
      AcquireKeeps(l, ReadI32(body, 0), env);
      var a := AcquireGameRoom(l, ReadI32(body, 0), env.pick);
      if a.Acquired? && !RoomAt(a.lobby, a.k).started && !RoomAt(a.lobby, a.k).IsFull() {
        SeatKeeps(a.lobby, s, a.k);
      }
    }
  }

  lemma StartKeepsLinks(l: Lobby, k: int)
    requires Linked(l) && k in l.rooms
    ensures Linked(Started(l, k)) && (Ids(l) ==> Ids(Started(l, k)))
  {
    var l1 := Started(l, k);
    assert forall s :: s in l1.players <==> s in l.players;
    assert forall s :: s in l.players ==> l1.players[s].room == l.players[s].room && l1.players[s].id == l.players[s].id;
    assert forall r :: r in l1.rooms <==> r in l.rooms;
    assert forall r :: r in l.rooms ==> l1.rooms[r].members == l.rooms[r].members;
  }

  /** A room that is due starts with its members, who all play from then on. */
  lemma StartKeeps(l: Lobby, k: int)
    requires Core(l) && k in l.rooms && Due(l, k)
    ensures Core(Started(l, k))
  {
    StartKeepsLinks(l, k);
    var l1 := Started(l, k);
    forall s | s in l1.players
      ensures (l1.players[s].room.To? <==> l1.players[s].state in {InRoom, InGame}) && l1.players[s].state != Closing
      ensures l1.players[s].state == InGame && l1.players[s].room.To? ==> RoomAt(l1, l1.players[s].room.key).started
    {
      if s in l.rooms[k].members {
        assert l.players[s].room == To(k);
      }
    }
  }

  lemma ReadyKeeps(l: Lobby, s: Sid, body: seq<byte>)
    requires Inv(l) && s in l.players && l.players[s].state == InRoom
    ensures Inv(OnReady(l, s, body).lobby)
  {
    var p := l.players[s];
    var k := p.room.key;
    if !RoomAt(l, k).started && |body| == 1 {
      var l1 := SetPlayer(l, s, p.(ready := body[0] != 0));
      EditPlayer(l, s, p.(ready := body[0] != 0));
      QuietKeepsMatches(l, l1);
      if Due(l1, k) {
        StartKeeps(l1, k);
        StartMatches(l1, k);
      }
    }
  }

  lemma ConnectKeeps(l: Lobby, s: Sid)
    requires Core(l)
    ensures Core(OnConnect(l, s)) && Quiet(l, OnConnect(l, s))
  {
    var l1 := OnConnect(l, s);
    assert Linked(l1);
    assert Ids(l1);
  }

  lemma DisconnectKeeps(l: Lobby, s: Sid)
    requires Core(l)
    ensures Core(OnDisconnect(l, s).lobby) && Quiet(l, OnDisconnect(l, s).lobby)
  {
    if s in l.players {
      LeaveKeeps(l, s);
      GoneKeeps(LeaveCurrent(l, s), s);
    }
  }

  lemma GoneKeeps(l: Lobby, s: Sid)
    requires CoreBut(l, s)
    ensures var l1 := l.(players := l.players - {s}); Core(l1) && Quiet(l, l1)
  {
  }

  lemma PacketIsQuiet(l: Lobby, s: Sid, packet: Packet, env: Env)
    requires Core(l) && PickOk(l, env) && s in l.players && GetHandler(l.players[s].state, packet.id) != Ready
    ensures var o := OnPacket(l, s, packet, env); o.Done? ==> Core(o.lobby) && Quiet(l, o.lobby)
  {
    var p := l.players[s];
    match GetHandler(p.state, packet.id)
    case NoHandler =>
    case Login => EditPlayer(l, s, p.(name := if packet.body == [] then p.name else packet.body, state := LoggedIn));
    case EnterRoomHandler => EnterRoomKeeps(l, s, packet.body);
    case ChatHandler =>
    case Hello => EditPlayer(l, s, p.(name := if p.name == [] then DefaultName(p.id) else p.name, state := LoggedIn));
    case JoinRoom => JoinRoomKeeps(l, s, packet.body, env);
  }

  lemma PacketKeepsInv(l: Lobby, s: Sid, packet: Packet, env: Env)
    requires Inv(l) && PickOk(l, env) && s in l.players
    ensures OnPacket(l, s, packet, env).Done? ==> Inv(OnPacket(l, s, packet, env).lobby)
  {
    if GetHandler(l.players[s].state, packet.id) == Ready {
      ReadyKeeps(l, s, packet.body);
    } else {
      PacketIsQuiet(l, s, packet, env);
      if OnPacket(l, s, packet, env).Done? {
        QuietKeepsMatches(l, OnPacket(l, s, packet, env).lobby);
      }
    }
  }

  /** Membership, the state machine, ids, room shapes and match accounting hold after every job. */
  lemma StepKeepsInv(l: Lobby, job: Job, env: Env)
    requires Inv(l) && PickOk(l, env)
    ensures Step(l, job, env).Done? ==> Inv(Step(l, job, env).lobby)
  {
    match job
    case Connect(s) =>
      ConnectKeeps(l, s);
      QuietKeepsMatches(l, OnConnect(l, s));
    case Disconnect(s) =>
      DisconnectKeeps(l, s);
      QuietKeepsMatches(l, OnDisconnect(l, s).lobby);
    case Deliver(s, packet) =>
      if s in l.players {
        PacketKeepsInv(l, s, packet, env);
      }
  }

  lemma InitialInv()
    ensures Inv(INITIAL)
  {
    assert StartedRooms(INITIAL) == {};
    assert forall k :: k in INITIAL.rooms ==> Playing(INITIAL, k) == {};
  }
}
