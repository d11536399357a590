/**
 The game thread's objects: players and rooms that point at each other, changed in place by the packet
 handlers. Abs reads the objects back as the value the module Lobby reasons about; each handler is
 proved to do to that value what Lobby's step says, effects included.
 */
module GameServer {
  import opened Bytes
  import opened Framing
  import opened Protocol
  import opened L = Lobby
  import I = LobbyInvariant
  import F = FSM
  import Q = GameJobQueue
  import T = LobbyTheorems
  import S = LobbySeparation

  class PlayerObject {
    const session: Sid
    var room: RoomObject?
    var name: seq<byte>
    var state: PlayerState
    var id: nat
    var ready: bool

    constructor (session: Sid)
      ensures this.session == session && room == null && name == [] && state == Start && id == 0 && !ready
    {
      this.session := session;
      room, name, state, id, ready := null, [], Start, 0, false;
    }

    predicate IsLoggedIn()
      reads this
    {
      name != []
    }
  }

  function Sessions(ps: seq<PlayerObject>): (ms: seq<Sid>)
    ensures |ms| == |ps|
    ensures forall i :: 0 <= i < |ps| ==> ms[i] == ps[i].session
  {
    seq(|ps|, i requires 0 <= i < |ps| => ps[i].session)
  }

  function Without(ps: seq<PlayerObject>, p: PlayerObject): (rest: seq<PlayerObject>)
    ensures forall q :: q in rest ==> q in ps
  {
    if ps == [] then []
    else if ps[0] == p then ps[1..]
    else [ps[0]] + Without(ps[1..], p)
  }

  lemma {:induction false} WithoutAt(ps: seq<PlayerObject>, i: nat)
    requires i < |ps| && forall j :: 0 <= j < i ==> ps[j] != ps[i]
    ensures Without(ps, ps[i]) == ps[..i] + ps[i + 1..]
  {
    if i > 0 {
      WithoutAt(ps[1..], i - 1);
      assert ps[..i] + ps[i + 1..] == [ps[0]] + (ps[1..][..i - 1] + ps[1..][i..]);
    }
  }

  /** Where players with different sessions are listed, erasing one erases its session. */
  lemma {:induction false} SessionsWithout(ps: seq<PlayerObject>, p: PlayerObject)
    requires forall q :: q in ps && q.session == p.session ==> q == p
    ensures Sessions(Without(ps, p)) == Remove(Sessions(ps), p.session)
    ensures p in ps <==> p.session in Sessions(ps)
  {
    if ps == [] {
    } else if ps[0] == p {
      assert Sessions(ps)[1..] == Sessions(ps[1..]);
    } else {
      SessionsWithout(ps[1..], p);
      assert Sessions(ps)[1..] == Sessions(ps[1..]);
      assert Sessions([ps[0]] + Without(ps[1..], p)) == [ps[0].session] + Sessions(Without(ps[1..], p));
    }
  }

  /** The calls of SendPacket and RequestClose the game thread makes, in order. */
  class Outbox {
    var sent: seq<Effect>

    constructor ()
      ensures sent == []
    {
      sent := [];
    }

    method Add(e: Effect)
      modifies this
      ensures sent == old(sent) + [e]
    {
      sent := sent + [e];
    }
  }

  class RoomObject {
    ghost const key: int        // where the rooms map holds it
    var roomId: nat
    var players: seq<PlayerObject>
    var capacity: nat
    var gameStarted: bool

    constructor (ghost key: int, id: int)
      ensures this.key == key && roomId == id % 65536 && players == [] && capacity == 0 && !gameStarted
    {
      this.key := key;
      roomId, players, capacity, gameStarted := id % 65536, [], 0, false;
    }

    predicate IsFull()
      reads this
    {
      capacity != 0 && |players| >= capacity
    }

    method Join(p: PlayerObject)
      modifies this`players, p`room
      ensures p in old(players) ==> players == old(players) && p.room == old(p.room)
      ensures p !in old(players) ==> players == old(players) + [p] && p.room == this
    {
      var i := 0;
      while i < |players|
        invariant 0 <= i <= |players|
        invariant p !in players[..i]
      {
        if players[i] == p {
          return;
        }
        i := i + 1;
      }
      players := players + [p];
      p.room := this;
    }

    method Leave(p: PlayerObject)
      modifies this`players, p`room
      ensures players == Without(old(players), p)
      ensures p.room == if p in old(players) then null else old(p.room)
    {
      var i := 0;
      while i < |players|
        invariant 0 <= i <= |players|
        invariant forall j :: 0 <= j < i ==> players[j] != p
      {
        if players[i] == p {
          WithoutAt(players, i);
          players := players[..i] + players[i + 1..];
          p.room := null;
          return;
        }
        i := i + 1;
      }
      NotListed(players, p);
    }

    /** The message goes, clipped, to everyone listed but the sender. */
    method BroadcastChat(sender: PlayerObject, msg: seq<byte>, out: Outbox)
      requires forall q :: q in players && q.session == sender.session ==> q == sender
      modifies out
      ensures out.sent == old(out.sent) +
              if sender.room == null || CHAT_OVERHEAD + |sender.name| >= MAX_PACKET_SIZE then []
              else SendAll(Others(Sessions(players), sender.session), Chat(sender.id, sender.name, Clip(sender.name, msg)))
    {
      if sender.room == null {
        return;
      }
      var name := sender.name;
      if CHAT_OVERHEAD + |name| >= MAX_PACKET_SIZE {
        return;
      }
      var maxMsgLen := MAX_PACKET_SIZE - CHAT_OVERHEAD - |name|;
      var clipped := msg;
      if |clipped| > maxMsgLen {
        clipped := clipped[..maxMsgLen];
      }
      var targets := players;
      ghost var chat := Chat(sender.id, name, clipped);
      ghost var ms := Sessions(targets);
      var i := 0;
      while i < |targets|
        invariant 0 <= i <= |targets|
        invariant out.sent == old(out.sent) + SendAll(Others(ms[..i], sender.session), chat)
      {
        assert targets[i] in players && ms[..i + 1] == ms[..i] + [ms[i]];
        OthersMore(ms[..i], ms[i], sender.session);
        if targets[i] != sender {
          SendAllMore(Others(ms[..i], sender.session), ms[i], chat);
          PlusAssociates(old(out.sent), SendAll(Others(ms[..i], sender.session), chat), [Send(ms[i], chat)]);
          out.Add(Send(targets[i].session, Chat(sender.id, name, clipped)));
        }
        i := i + 1;
      }
      assert ms[..i] == ms;
    }
  }

  lemma {:induction false} OthersMore(ms: seq<Sid>, m: Sid, s: Sid)
    ensures Others(ms + [m], s) == Others(ms, s) + if m == s then [] else [m]
  {
    if ms != [] {
      OthersMore(ms[1..], m, s);
      assert (ms + [m])[1..] == ms[1..] + [m];
    }
  }

  lemma SendAllMore(ms: seq<Sid>, m: Sid, msg: Msg)
    ensures SendAll(ms + [m], msg) == SendAll(ms, msg) + [Send(m, msg)]
  {
  }

  lemma {:induction false} NotListed(ps: seq<PlayerObject>, p: PlayerObject)
    requires p !in ps
    ensures Without(ps, p) == ps
  {
    if ps != [] {
      NotListed(ps[1..], p);
    }
  }

  ghost function RoomsOf(p: PlayerObject): set<RoomObject>
    reads p
  {
    if p.room == null then {} else {p.room}
  }

  ghost function PlayerOf(p: PlayerObject): Player
    reads p
  {
    Player(p.id, p.name, p.state, p.ready, if p.room == null then Null else To(p.room.key))
  }

  ghost function RoomOf(r: RoomObject): Room
    reads r
  {
    Room(r.roomId, Sessions(r.players), r.capacity, r.gameStarted)
  }

  lemma NoKey(keys: set<int>)
    requires forall k :: k !in keys
    ensures keys == {}
  {
    assert forall k :: k in keys <==> k in {};
  }

  lemma SomeKey(keys: set<int>)
    requires keys != {}
    ensures exists k :: k in keys
  {
    if forall k :: k !in keys {
      NoKey(keys);
    }
  }

  class GameServer {
    const fsm: F.HandlerTable
    const out: Outbox
    var players: map<Sid, PlayerObject>
    var rooms: map<int, RoomObject>
    var nextPlayerId: nat
    var nextGameRoomId: int
    var nextMatchId: nat

    // ---- the objects as a value -----------------------------------------------------------------

    ghost predicate IsLive(p: PlayerObject)
      reads this
    {
      p.session in players && players[p.session] == p
    }

    ghost predicate IsRoom(r: RoomObject)
      reads this
    {
      r.key in rooms && rooms[r.key] == r
    }

    ghost predicate PlayerOk(s: Sid)
      reads this, players.Values
    {
      s in players ==> players[s].session == s && (players[s].room != null ==> IsRoom(players[s].room))
    }

    ghost predicate RoomOk(k: int)
      reads this, rooms.Values
    {
      k in rooms ==> rooms[k].key == k && (forall q :: q in rooms[k].players ==> IsLive(q))
    }

    /** Keys and objects agree, every room pointer is to a room in the map, every listed player is live. */
    ghost predicate Valid()
      reads this, players.Values, rooms.Values, fsm.rows
    {
      fsm.Valid() && (forall s :: PlayerOk(s)) && (forall k :: RoomOk(k))
    }

    ghost function Abs(): L.Lobby
      reads this, players.Values, rooms.Values
    {
      L.Lobby(map s | s in players :: PlayerOf(players[s]), map k | k in rooms :: RoomOf(rooms[k]),
              nextPlayerId, nextGameRoomId, nextMatchId)
    }

    lemma OtherPlayers(p: PlayerObject)
      requires Valid() && IsLive(p)
      ensures forall s :: s in players && s != p.session ==> players[s] != p
    {
      forall s | s in players && s != p.session
        ensures players[s] != p
      {
        assert PlayerOk(s);
      }
    }

    lemma OtherRooms(r: RoomObject)
      requires Valid() && IsRoom(r)
      ensures forall k :: k in rooms && k != r.key ==> rooms[k] != r
    {
      forall k | k in rooms && k != r.key
        ensures rooms[k] != r
      {
        assert RoomOk(k);
      }
    }

    lemma PointsIntoTheMap(p: PlayerObject)
      requires Valid() && IsLive(p)
      ensures RoomsOf(p) <= rooms.Values
    {
      assert PlayerOk(p.session);
      if p.room != null {
        assert rooms[p.room.key] in rooms.Values;
      }
    }

    /** A live player is in a room's list exactly when its session is in the list of sessions. */
    lemma Listed(p: PlayerObject, r: RoomObject)
      requires Valid() && IsLive(p) && IsRoom(r)
      ensures p in r.players <==> p.session in RoomAt(Abs(), r.key).members
      ensures forall q :: q in r.players && q.session == p.session ==> q == p
      ensures RoomAt(Abs(), r.key) == RoomOf(r) && Get(Abs(), p.session) == PlayerOf(p)
    {
      assert RoomOk(r.key);
      var ms := Sessions(r.players);
      if p in r.players {
        var i :| 0 <= i < |r.players| && r.players[i] == p;
        assert ms[i] == p.session;
      }
      if p.session in ms {
        var i :| 0 <= i < |ms| && ms[i] == p.session;
        assert r.players[i] in r.players;
      }
    }

    ghost predicate AllListed(list: seq<PlayerObject>)
      reads this
    {
      forall s :: s in players ==> (players[s] in list <==> s in Sessions(list))
    }

    lemma AllAreListed(r: RoomObject)
      requires Valid() && IsRoom(r)
      ensures AllListed(r.players)
    {
      forall s | s in players
        ensures players[s] in r.players <==> s in Sessions(r.players)
      {
        assert PlayerOk(s);
        Listed(players[s], r);
      }
    }

    /** Every object in the maps was there or is new. */
    twostate predicate OnlyNew()
      reads this
    {
      && (forall p :: p in players.Values ==> p in old(players.Values) || fresh(p))
      && (forall r :: r in rooms.Values ==> r in old(rooms.Values) || fresh(r))
    }

    /** The outcome of a step, as the objects show it: a lost room, or the new lobby and the effects sent. */
    twostate predicate Shows(o: Outcome, lost: bool)
      reads this, players.Values, rooms.Values, fsm.rows, out
    {
      && (lost <==> o.Dangling?)
      && (!lost ==> Valid() && Abs() == o.lobby && out.sent == old(out.sent) + o.effects)
    }

    // ---- what a write does to the value -----------------------------------------------------------

    /** The fields of one player were written, its room pointer to null or to a room of the map. */
    twostate lemma PlayerWritten(s: Sid)
      requires old(Valid()) && unchanged(this, fsm.rows) && s in players
      requires forall t :: t in players && t != s ==> unchanged(players[t])
      requires forall k :: k in rooms ==> unchanged(rooms[k])
      requires players[s].room != null ==> IsRoom(players[s].room)
      ensures Valid() && Abs() == SetPlayer(old(Abs()), s, PlayerOf(players[s]))
    {
      forall t ensures PlayerOk(t) { assert old(PlayerOk(t)); }
      forall k ensures RoomOk(k) { assert old(RoomOk(k)); }
      forall k | k in rooms ensures RoomOf(rooms[k]) == old(RoomOf(rooms[k])) { assert old(RoomOk(k)); }
      assert Abs().rooms == old(Abs()).rooms;
      OldPlayers(s);
    }

    /** Everyone else, read back, is who it was. */
    twostate lemma OldPlayers(s: Sid)
      requires old(Valid()) && players == old(players) && s in players
      requires forall t :: t in players && t != s ==> unchanged(players[t])
      ensures Abs().players == old(Abs()).players[s := PlayerOf(players[s])]
    {
      forall t | t in players && t != s
        ensures PlayerOf(players[t]) == old(PlayerOf(players[t]))
      {
        assert old(PlayerOk(t));
      }
    }

    /** ... and one room with it. */
    twostate lemma BothWritten(new s: Sid, new k: int)
      requires old(Valid()) && unchanged(this, fsm.rows) && s in players && k in rooms
      requires forall t :: t in players && t != s ==> unchanged(players[t])
      requires forall j :: j in rooms && j != k ==> unchanged(rooms[j])
      requires players[s].room != null ==> IsRoom(players[s].room)
      requires forall q :: q in rooms[k].players ==> IsLive(q)
      ensures Valid() && Abs() == SetPlayer(SetRoom(old(Abs()), k, RoomOf(rooms[k])), s, PlayerOf(players[s]))
    {
      forall t ensures PlayerOk(t) { assert old(PlayerOk(t)); }
      forall j ensures RoomOk(j) { assert old(RoomOk(j)); }
      forall j | j in rooms && j != k ensures RoomOf(rooms[j]) == old(RoomOf(rooms[j])) { assert old(RoomOk(j)); }
      assert Abs().rooms == old(Abs()).rooms[k := RoomOf(rooms[k])];
      OldPlayers(s);
    }

    /** A room came into the map; nothing else changed. */
    twostate lemma RoomAdded(new k: int, new r: RoomObject)
      requires old(Valid()) && k !in old(rooms) && rooms == old(rooms)[k := r] && r.key == k && r.players == []
      requires players == old(players) && unchanged(fsm.rows)
      requires nextPlayerId == old(nextPlayerId) && nextMatchId == old(nextMatchId)
      requires forall s :: s in players ==> unchanged(players[s])
      requires forall j :: j in old(rooms) ==> unchanged(old(rooms)[j])
      ensures Valid() && Abs() == SetRoom(old(Abs()), k, RoomOf(r)).(nextGameRoomId := nextGameRoomId)
    {
      forall s ensures PlayerOk(s) { assert old(PlayerOk(s)); }
      forall j ensures RoomOk(j) { assert old(RoomOk(j)); }
      forall j | j in old(rooms) ensures RoomOf(old(rooms)[j]) == old(RoomOf(rooms[j])) { assert old(RoomOk(j)); }
      assert Abs().rooms == old(Abs()).rooms[k := RoomOf(r)];
      assert Abs().players == old(Abs()).players;
    }

    /** The fields of one room were written. */
    twostate lemma RoomWritten(k: int)
      requires old(Valid()) && unchanged(this, fsm.rows) && k in rooms
      requires forall s :: s in players ==> unchanged(players[s])
      requires forall j :: j in rooms && j != k ==> unchanged(rooms[j])
      requires forall q :: q in rooms[k].players ==> IsLive(q)
      ensures Valid() && Abs() == SetRoom(old(Abs()), k, RoomOf(rooms[k]))
    {
      forall s ensures PlayerOk(s) { assert old(PlayerOk(s)); }
      forall j ensures RoomOk(j) { assert old(RoomOk(j)); }
      forall j | j in rooms && j != k ensures RoomOf(rooms[j]) == old(RoomOf(rooms[j])) { assert old(RoomOk(j)); }
      forall s | s in players ensures PlayerOf(players[s]) == old(PlayerOf(players[s])) { assert old(PlayerOk(s)); }
      assert Abs().rooms == old(Abs()).rooms[k := RoomOf(rooms[k])];
      assert Abs().players == old(Abs()).players;
    }

    /** A counter was written. */
    twostate lemma CounterWritten()
      requires old(Valid()) && unchanged(fsm.rows) && players == old(players) && rooms == old(rooms)
      requires forall s :: s in players ==> unchanged(players[s])
      requires forall k :: k in rooms ==> unchanged(rooms[k])
      ensures Valid()
      ensures Abs() == old(Abs()).(nextPlayerId := nextPlayerId, nextGameRoomId := nextGameRoomId, nextMatchId := nextMatchId)
    {
      forall s ensures PlayerOk(s) { assert old(PlayerOk(s)); }
      forall k ensures RoomOk(k) { assert old(RoomOk(k)); }
      forall k | k in rooms ensures RoomOf(rooms[k]) == old(RoomOf(rooms[k])) { assert old(RoomOk(k)); }
      forall s | s in players ensures PlayerOf(players[s]) == old(PlayerOf(players[s])) { assert old(PlayerOk(s)); }
      assert Abs().rooms == old(Abs()).rooms && Abs().players == old(Abs()).players;
    }

    // ---- leaving and entering -----------------------------------------------------------------------

    /** Room 1 is the lobby. */
    constructor ()
      ensures Valid() && Abs() == INITIAL && out.sent == []
      ensures fresh(rooms.Values) && fresh(fsm.rows) && fresh(out)
    {
      fsm := new F.HandlerTable();
      out := new Outbox();
      var lobby := new RoomObject(1, 1);
      players, rooms := map[], map[1 := lobby];
      nextPlayerId, nextGameRoomId, nextMatchId := 1, FIRST_GAME_ROOM, 1;
      new;
      assert Abs().rooms == INITIAL.rooms;
    }

    method LeaveRoom(p: PlayerObject)
      requires Valid() && IsLive(p)
      modifies p`room, RoomsOf(p)
      ensures Valid() && Abs() == LeaveCurrent(old(Abs()), p.session)
    {
      var room := p.room;
      if room != null {
        assert PlayerOk(p.session) && RoomOk(room.key);
        OtherPlayers(p);
        OtherRooms(room);
        Listed(p, room);
        SessionsWithout(room.players, p);
        room.Leave(p);
        BothWritten(p.session, room.key);
        if p !in old(room.players) {
          NotListed(old(room.players), p);
          assert Abs().rooms == old(Abs()).rooms && Abs().players == old(Abs()).players;
        }
      }
    }

    method GetOrCreateRoom(k: int) returns (r: RoomObject)
      requires Valid()
      modifies this`rooms
      ensures Valid() && Abs() == L.GetOrCreateRoom(old(Abs()), k)
      ensures OnlyNew()
      ensures r.key == k && IsRoom(r) && (fresh(r) || r in old(rooms.Values))
      ensures forall j :: j in old(rooms) ==> j in rooms && rooms[j] == old(rooms)[j]
    {
      if k in rooms {
        assert RoomOk(k);
        return rooms[k];
      }
      r := new RoomObject(k, k);
      rooms := rooms[k := r];
      RoomAdded(k, r);
    }

    /** room->Join(p) */
    method JoinRoom(p: PlayerObject, room: RoomObject)
      requires Valid() && IsLive(p) && IsRoom(room)
      modifies room`players, p`room
      ensures Valid() && Abs() == Join(old(Abs()), p.session, room.key)
    {
      assert PlayerOk(p.session) && RoomOk(room.key);
      OtherPlayers(p);
      OtherRooms(room);
      Listed(p, room);
      room.Join(p);
      BothWritten(p.session, room.key);
      if p in old(room.players) {
        assert Abs().rooms == old(Abs()).rooms && Abs().players == old(Abs()).players;
      } else {
        assert Sessions(old(room.players) + [p]) == Sessions(old(room.players)) + [p.session];
      }
    }

    method EnterRoom(p: PlayerObject, k: int)
      requires Valid() && IsLive(p)
      modifies this`rooms, p`room, rooms.Values
      ensures Valid() && Abs() == L.EnterRoom(old(Abs()), p.session, k)
      ensures OnlyNew()
    {
      PointsIntoTheMap(p);
      LeaveRoom(p);
      var room := GetOrCreateRoom(k);
      JoinRoom(p, room);
    }

    // ---- packets ------------------------------------------------------------------------------------

    method HandleLogin(s: Sid, body: seq<byte>)
      requires Valid() && s in players
      modifies players[s]
      ensures Valid() && Done(Abs(), []) == OnLogin(old(Abs()), s, body)
    {
      assert PlayerOk(s);
      OtherPlayers(players[s]);
      if body != [] {
        players[s].name := body;
      }
      players[s].state := LoggedIn;   // FSM_Login
      PlayerWritten(s);
    }

    method SetState(p: PlayerObject, state: PlayerState)
      requires Valid() && IsLive(p)
      modifies p`state
      ensures Valid() && Abs() == SetPlayer(old(Abs()), p.session, Get(old(Abs()), p.session).(state := state))
    {
      assert PlayerOk(p.session);
      OtherPlayers(p);
      p.state := state;
      PlayerWritten(p.session);
    }

    method SetReady(p: PlayerObject, ready: bool)
      requires Valid() && IsLive(p)
      modifies p`ready
      ensures Valid() && Abs() == SetPlayer(old(Abs()), p.session, Get(old(Abs()), p.session).(ready := ready))
    {
      assert PlayerOk(p.session);
      OtherPlayers(p);
      p.ready := ready;
      PlayerWritten(p.session);
    }

    method HandleEnterRoom(s: Sid, body: seq<byte>)
      requires Valid() && s in players
      modifies this`rooms, players[s], rooms.Values
      ensures Valid() && Done(Abs(), []) == OnEnterRoom(old(Abs()), s, body)
      ensures OnlyNew()
    {
      var p := players[s];
      assert PlayerOk(s);
      if p.IsLoggedIn() && |body| >= 4 {
        EnterRoom(p, ReadI32(body, 0));
      }
      assert PlayerOk(s);
      if p.room != null {
        SetState(p, InRoom);          // FSM_EnterRoom
      }
    }

    method SendError(s: Sid, rejectedId: nat, code: nat)
      modifies out
      ensures out.sent == old(out.sent) + [Send(s, Error(rejectedId, code))]
    {
      out.Add(Send(s, Error(rejectedId, code)));
    }

    method HandleHello(s: Sid, body: seq<byte>, tick: nat)
      requires Valid() && s in players
      modifies players[s], out
      ensures Valid() && out.sent == old(out.sent) + OnHello(old(Abs()), s, body, tick).effects
      ensures Abs() == OnHello(old(Abs()), s, body, tick).lobby
    {
      var p := players[s];
      assert PlayerOk(s);
      OtherPlayers(p);
      if |body| != 2 {
        SendError(s, CS_HELLO, ERR_BAD_FORMAT);
        out.Add(Close(s));
      } else if ReadU16(body, 0) != PROTOCOL_VERSION {
        SendError(s, CS_HELLO, ERR_VERSION_MISMATCH);
        out.Add(Close(s));
      } else {
        if p.name == [] {
          p.name := DefaultName(p.id);
        }
        out.Add(Send(s, Welcome(p.id, tick)));
        p.state := LoggedIn;
        PlayerWritten(s);
      }
    }

    method HandleChat(s: Sid, body: seq<byte>)
      requires Valid() && s in players
      modifies out
      ensures Valid() && Abs() == old(Abs())
      ensures out.sent == old(out.sent) + OnChat(Abs(), s, body).effects
    {
      var p := players[s];
      assert PlayerOk(s);
      if !p.IsLoggedIn() || p.room == null || body == [] {
        return;
      }
      Listed(p, p.room);
      p.room.BroadcastChat(p, body, out);
    }

    // ---- room states --------------------------------------------------------------------------------

    /** The entries are written one by one, in the order of the list. */
    method SendRoomState(s: Sid, room: RoomObject)
      requires Valid() && IsRoom(room)
      modifies out
      ensures out.sent == old(out.sent) + [Send(s, RoomState(View(Abs(), room.key)))]
      ensures Valid() && Abs() == old(Abs())
    {
      var list := room.players;
      ghost var l := Abs();
      assert RoomOk(room.key) && RoomAt(l, room.key) == RoomOf(room);
      var entries: seq<Entry> := [];
      var i := 0;
      while i < |list|
        invariant 0 <= i <= |list| && entries == View(l, room.key).entries[..i]
      {
        var member := list[i];
        assert member in room.players && Get(l, member.session) == PlayerOf(member);
        entries := entries + [Entry(member.id, member.ready, member.name)];
        i := i + 1;
      }
      assert View(l, room.key) == RoomView(room.roomId, room.capacity, entries);
      out.Add(Send(s, RoomState(RoomView(room.roomId, room.capacity, entries))));
      assert Abs() == l;
    }

    method BroadcastRoomState(room: RoomObject)
      requires Valid() && IsRoom(room)
      modifies out
      ensures out.sent == old(out.sent) + L.BroadcastRoomState(Abs(), room.key)
      ensures Valid() && Abs() == old(Abs())
    {
      var targets := room.players;
      ghost var l := Abs();
      assert RoomOk(room.key) && RoomAt(l, room.key) == RoomOf(room);
      ghost var all := L.BroadcastRoomState(l, room.key);
      var i := 0;
      while i < |targets|
        invariant 0 <= i <= |targets| == |all|
        invariant out.sent == old(out.sent) + all[..i]
        invariant Valid() && Abs() == l
      {
        SendRoomState(targets[i].session, room);
        assert all[..i + 1] == all[..i] + [all[i]];
        PlusAssociates(old(out.sent), all[..i], [all[i]]);
        i := i + 1;
      }
      assert all[..i] == all;
    }

    // ---- joining a game room ------------------------------------------------------------------------

    /** The first open room the map yields, in whatever order it yields them. */
    method FindOpenRoom() returns (room: RoomObject?, ghost pick: RoomPtr)
      requires Valid()
      ensures PickOk(Abs(), Env(pick, 0))
      ensures room == null <==> pick.Null?
      ensures room != null ==> IsRoom(room) && pick == To(room.key)
    {
      var keys: set<int> := rooms.Keys;
      while keys != {}
        invariant keys <= rooms.Keys
        invariant forall k :: k in rooms && k !in keys ==> !RoomOf(rooms[k]).IsOpen()
      {
        SomeKey(keys);
        var k :| k in keys;
        var r := rooms[k];
        if r.capacity != 0 && !r.gameStarted && !r.IsFull() {
          assert RoomOk(k) && Abs().rooms[k] == RoomOf(r);
          return r, To(k);
        }
        keys := keys - {k};
      }
      assert forall k :: k in rooms ==> Abs().rooms[k] == RoomOf(rooms[k]);
      return null, Null;
    }

    /** A new game room, under its key unless that is taken: then the map keeps what it has and the room is gone. */
    method EmplaceGameRoom(k: int) returns (room: RoomObject, taken: bool)
      requires Valid()
      modifies this`rooms
      ensures taken <==> k in old(rooms)
      ensures taken ==> rooms == old(rooms)
      ensures !taken ==> Valid() && Abs() == SetRoom(old(Abs()), k, NewGameRoom(k)) && room.key == k && IsRoom(room)
      ensures fresh(room)
      ensures OnlyNew()
    {
      room := new RoomObject(k, k);
      room.capacity := GAME_ROOM_CAPACITY;
      taken := k in rooms;
      if !taken {
        rooms := rooms[k := room];
        RoomAdded(k, room);
      }
    }

    /** lost: the emplace found the next number taken, and the room made for it is gone. */
    method AcquireGameRoom(requested: int) returns (room: RoomObject?, lost: bool, ghost pick: RoomPtr)
      requires Valid()
      modifies this`rooms, this`nextGameRoomId, rooms.Values
      ensures PickOk(old(Abs()), Env(pick, 0))
      ensures var a := L.AcquireGameRoom(old(Abs()), requested, pick);
              && (lost <==> a.Lost?)
              && (!lost ==> Valid() && (room == null <==> a.Refused?))
              && (a.Refused? ==> Abs() == old(Abs()))
              && (a.Acquired? ==> Abs() == a.lobby && room.key == a.k && IsRoom(room))
      ensures room == null || room in old(rooms.Values) || fresh(room)
      ensures OnlyNew()
    {
      lost := false;
      if requested == 0 {
        room, pick := FindOpenRoom();
        if room != null {
          assert rooms[room.key] in rooms.Values;
          return;
        }
        var id := nextGameRoomId;
        room, lost := EmplaceGameRoom(id);
        label emplaced:
        nextGameRoomId := nextGameRoomId + 1;
        if !lost {
          CounterWritten@emplaced();
        }
        return;
      }
      pick := AnyOpenRoom();
      if requested !in rooms {
        room, lost := EmplaceGameRoom(requested);
        return;
      }
      room := rooms[requested];
      assert RoomOk(requested) && RoomOf(room) == Abs().rooms[requested];
      if room.capacity == 0 {
        if |room.players| > 0 {
          return null, false, pick;
        }
        OtherRooms(room);
        room.capacity := GAME_ROOM_CAPACITY;
        RoomWritten(requested);
      }
    }

    ghost method AnyOpenRoom() returns (pick: RoomPtr)
      ensures PickOk(Abs(), Env(pick, 0))
    {
      if k :| k in rooms && Abs().rooms[k].IsOpen() {
        pick := To(k);
      } else {
        pick := Null;
      }
    }

    /** The player moves over: out of its old room, not ready, into the new one. */
    method Seat(p: PlayerObject, room: RoomObject)
      requires Valid() && IsLive(p) && IsRoom(room)
      modifies p, RoomsOf(p), room`players
      ensures Valid() && Abs() == L.Seat(old(Abs()), p.session, room.key)
    {
      LeaveRoom(p);
      SetReady(p, false);
      JoinRoom(p, room);
      SetState(p, InRoom);
    }

    method Admit(p: PlayerObject, room: RoomObject)
      requires Valid() && IsLive(p) && IsRoom(room)
      modifies p, RoomsOf(p), room`players, out
      ensures Valid()
      ensures var l, s, k := old(Abs()), p.session, room.key;
              && Abs() == (if RoomAt(l, k).started || RoomAt(l, k).IsFull() then l else L.Seat(l, s, k))
              && out.sent == old(out.sent) +
                 if RoomAt(l, k).started then [Send(s, Error(CS_JOIN_ROOM, ERR_MATCH_ENDED))]
                 else if RoomAt(l, k).IsFull() then [Send(s, Error(CS_JOIN_ROOM, ERR_ROOM_FULL))]
                 else L.BroadcastRoomState(L.Seat(l, s, k), k)
    {
      assert RoomOk(room.key) && RoomAt(Abs(), room.key) == RoomOf(room);
      if room.gameStarted {
        SendError(p.session, CS_JOIN_ROOM, ERR_MATCH_ENDED);
      } else if room.IsFull() {
        SendError(p.session, CS_JOIN_ROOM, ERR_ROOM_FULL);
      } else {
        Seat(p, room);
        BroadcastRoomState(room);
      }
    }

    method JoinRequested(s: Sid, requested: int) returns (lost: bool, ghost pick: RoomPtr)
      requires Valid() && s in players
      modifies this`rooms, this`nextGameRoomId, rooms.Values, players[s], out
      ensures PickOk(old(Abs()), Env(pick, 0))
      ensures OnlyNew()
      ensures Shows(L.JoinRequested(old(Abs()), s, requested, pick), lost)
    {
      var p := players[s];
      assert PlayerOk(s);
      PointsIntoTheMap(p);
      var room: RoomObject?;
      room, lost, pick := AcquireGameRoom(requested);
      if lost {
        return;
      }
      if room == null {
        SendError(s, CS_JOIN_ROOM, ERR_NO_SUCH_ROOM);
        return;
      }
      Admit(p, room);
    }

    method HandleJoinRoom(s: Sid, body: seq<byte>) returns (lost: bool, ghost pick: RoomPtr)
      requires Valid() && s in players
      modifies this`rooms, this`nextGameRoomId, rooms.Values, players[s], out
      ensures PickOk(old(Abs()), Env(pick, 0))
      ensures OnlyNew()
      ensures Shows(OnJoinRoom(old(Abs()), s, body, pick), lost)
    {
      if |body| != 4 {
        pick := AnyOpenRoom();
        SendError(s, CS_JOIN_ROOM, ERR_BAD_FORMAT);
        return false, pick;
      }
      var requested := ReadI32(body, 0);
      if requested < 0 {
        pick := AnyOpenRoom();
        SendError(s, CS_JOIN_ROOM, ERR_NO_SUCH_ROOM);
        return false, pick;
      }
      lost, pick := JoinRequested(s, requested);
    }

    // ---- the start of a match -----------------------------------------------------------------------

    /** What a started player is. */
    ghost predicate Turned(p: PlayerObject, was: Player, playing: bool)
      reads p
    {
      PlayerOf(p) == if playing then was.(state := InGame) else was
    }

    /** Every member plays from now on and is told so. */
    method StartAll(list: seq<PlayerObject>, msg: Msg)
      modifies list, out
      ensures forall p :: p in list ==> PlayerOf(p) == old(PlayerOf(p)).(state := InGame)
      ensures forall p :: p in list ==> p.room == old(p.room)
      ensures out.sent == old(out.sent) + SendAll(Sessions(list), msg)
    {
      ghost var all := SendAll(Sessions(list), msg);
      var i := 0;
      while i < |list|
        invariant 0 <= i <= |list| == |all|
        invariant forall p :: p in list ==> p.room == old(p.room)
        invariant forall p :: p in list ==> Turned(p, old(PlayerOf(p)), p in list[..i] || p.state == InGame)
        invariant out.sent == old(out.sent) + all[..i]
      {
        var member := list[i];
        assert list[..i + 1] == list[..i] + [member];
        member.state := InGame;
        out.Add(Send(member.session, msg));
        assert all[..i + 1] == all[..i] + [all[i]];
        PlusAssociates(old(out.sent), all[..i], [all[i]]);
        i := i + 1;
      }
      assert list[..i] == list && all[..i] == all;
    }

    /** The room started, its members play, and a match id is used up. */
    twostate lemma MatchWritten(k: int)
      requires old(Valid()) && unchanged(fsm.rows) && players == old(players) && rooms == old(rooms) && k in rooms
      requires nextPlayerId == old(nextPlayerId) && nextGameRoomId == old(nextGameRoomId) && nextMatchId == old(nextMatchId) + 1
      requires RoomOf(rooms[k]) == old(RoomOf(rooms[k])).(started := true) && rooms[k].players == old(rooms[k].players)
      requires forall j :: j in rooms && j != k ==> unchanged(rooms[j])
      requires forall s :: s in players ==> players[s].room == old(players[s].room)
      requires forall s :: s in players && players[s] in rooms[k].players ==> PlayerOf(players[s]) == old(PlayerOf(players[s])).(state := InGame)
      requires forall s :: s in players && players[s] !in rooms[k].players ==> unchanged(players[s])
      requires AllListed(rooms[k].players)
      ensures Valid() && Abs() == Started(old(Abs()), k)
    {
      forall s ensures PlayerOk(s) { assert old(PlayerOk(s)); }
      forall j ensures RoomOk(j) { assert old(RoomOk(j)); }
      forall j | j in rooms && j != k ensures RoomOf(rooms[j]) == old(RoomOf(rooms[j])) { assert old(RoomOk(j)); }
      assert Abs().rooms == Started(old(Abs()), k).rooms;
      forall s | s in players
        ensures PlayerOf(players[s]) == Started(old(Abs()), k).players[s]
      {
        assert old(PlayerOk(s));
      }
      assert Abs().players == Started(old(Abs()), k).players;
    }

    /** Every member of the room is ready; the ids are collected in the order of the list. */
    method Roster(room: RoomObject) returns (ready: bool, ids: seq<nat>)
      requires Valid() && IsRoom(room)
      ensures ready <==> AllReady(Abs(), RoomAt(Abs(), room.key).members)
      ensures ready ==> ids == IdsOf(Abs(), RoomAt(Abs(), room.key).members)
    {
      var list := room.players;
      ghost var l, ms := Abs(), Sessions(list);
      assert RoomOk(room.key) && RoomAt(l, room.key) == RoomOf(room);
      ready, ids := true, [];
      var i := 0;
      while i < |list|
        invariant 0 <= i <= |list|
        invariant forall j :: 0 <= j < i ==> Get(l, ms[j]).ready
        invariant |ids| == i && forall j :: 0 <= j < i ==> ids[j] == Get(l, ms[j]).id
      {
        var member := list[i];
        assert member in room.players && Get(l, ms[i]) == PlayerOf(member);
        if !member.ready {
          return false, [];
        }
        ids := ids + [member.id];
        i := i + 1;
      }
    }

    method TryStartGame(room: RoomObject)
      requires Valid() && IsRoom(room)
      modifies this`nextMatchId, room`gameStarted, room.players, out
      ensures Valid() && Abs() == L.TryStartGame(old(Abs()), room.key)
      ensures out.sent == old(out.sent) + StartEffects(old(Abs()), room.key)
    {
      assert RoomOk(room.key) && RoomAt(Abs(), room.key) == RoomOf(room);
      if room.gameStarted || room.capacity == 0 || |room.players| != room.capacity {
        return;
      }
      var ready, ids := Roster(room);
      if !ready {
        return;
      }
      var matchId := nextMatchId;
      AllAreListed(room);
      OtherRooms(room);
      nextMatchId := nextMatchId + 1;
      room.gameStarted := true;
      StartAll(room.players, GameStart(matchId, ids));
      forall s | s in players
        ensures players[s].room == old(players[s].room)
        ensures players[s] in room.players ==> PlayerOf(players[s]) == old(PlayerOf(players[s])).(state := InGame)
      {
        assert old(PlayerOk(s));
      }
      MatchWritten(room.key);
    }

    lemma MembersAreLive(room: RoomObject)
      requires Valid() && IsRoom(room)
      ensures forall q :: q in room.players ==> q in players.Values
    {
      assert RoomOk(room.key);
      forall q | q in room.players
        ensures q in players.Values
      {
        assert players[q.session] in players.Values;
      }
    }

    /** The flag is set and shown first, then the match may start. */
    method ReadyIn(p: PlayerObject, room: RoomObject, ready: bool)
      requires Valid() && IsLive(p) && p.room == room && IsRoom(room)
      modifies this`nextMatchId, room`gameStarted, players.Values, out
      ensures Valid()
      ensures var l := SetPlayer(old(Abs()), p.session, Get(old(Abs()), p.session).(ready := ready));
              && Abs() == L.TryStartGame(l, room.key)
              && out.sent == old(out.sent) + (L.BroadcastRoomState(l, room.key) + StartEffects(l, room.key))
    {
      assert PlayerOk(p.session) && players[p.session] in players.Values;
      MembersAreLive(room);
      SetReady(p, ready);
      PlusAssociates(out.sent, L.BroadcastRoomState(Abs(), room.key), StartEffects(Abs(), room.key));
      BroadcastRoomState(room);
      TryStartGame(room);
    }

    method HandleReady(s: Sid, body: seq<byte>)
      requires Valid() && s in players
      modifies this`nextMatchId, rooms.Values, players.Values, out
      ensures Valid() && Abs() == OnReady(old(Abs()), s, body).lobby
      ensures out.sent == old(out.sent) + OnReady(old(Abs()), s, body).effects
    {
      var p := players[s];
      var room := p.room;
      assert PlayerOk(s) && Get(Abs(), s) == PlayerOf(p);
      if room == null {
        SendError(s, CS_READY, ERR_NOT_ALLOWED);
        return;
      }
      assert RoomOk(room.key) && RoomAt(Abs(), room.key) == RoomOf(room) && rooms[room.key] in rooms.Values;
      if room.gameStarted {
        SendError(s, CS_READY, ERR_MATCH_ENDED);
      } else if |body| != 1 {
        SendError(s, CS_READY, ERR_BAD_FORMAT);
      } else {
        ReadyIn(p, room, body[0] != 0);
      }
    }

    // ---- sessions -----------------------------------------------------------------------------------

    /** A new player; emplace keeps one that is there. */
    method OnSessionConnected(s: Sid)
      requires Valid()
      modifies this`players, this`nextPlayerId
      ensures Valid() && Abs() == OnConnect(old(Abs()), s)
      ensures OnlyNew()
      ensures rooms == old(rooms)
    {
      var p := new PlayerObject(s);
      p.id := nextPlayerId;
      nextPlayerId := nextPlayerId + 1;
      if s !in players {
        players := players[s := p];
      }
      PlayerAdded(s);
    }

    twostate lemma PlayerAdded(s: Sid)
      requires old(Valid()) && unchanged(fsm.rows) && rooms == old(rooms) && s in players
      requires players == if s in old(players) then old(players) else old(players)[s := players[s]]
      requires s !in old(players) ==> players[s].session == s && PlayerOf(players[s]) == Player(old(nextPlayerId), [], Start, false, Null)
      requires nextPlayerId == old(nextPlayerId) + 1 && nextGameRoomId == old(nextGameRoomId) && nextMatchId == old(nextMatchId)
      requires forall t :: t in old(players) ==> unchanged(old(players)[t])
      requires forall k :: k in rooms ==> unchanged(rooms[k])
      ensures Valid() && Abs() == OnConnect(old(Abs()), s)
    {
      forall t ensures PlayerOk(t) { assert old(PlayerOk(t)); }
      forall k ensures RoomOk(k) { assert old(RoomOk(k)); }
      forall k | k in rooms ensures RoomOf(rooms[k]) == old(RoomOf(rooms[k])) { assert old(RoomOk(k)); }
      forall t | t in old(players) ensures PlayerOf(players[t]) == old(PlayerOf(players[t])) { assert old(PlayerOk(t)); }
      assert Abs().rooms == old(Abs()).rooms;
      assert Abs().players == OnConnect(old(Abs()), s).players;
    }

    lemma InNoList(p: PlayerObject)
      requires Valid() && IsLive(p) && I.Linked(Abs()) && Get(Abs(), p.session).room.Null?
      ensures RoomsWithout(p)
    {
      forall k | k in rooms
        ensures p !in rooms[k].players
      {
        assert RoomOk(k);
        Listed(p, rooms[k]);
      }
    }

    /** The player leaves its room, goes, and those left in a game room are told. */
    method OnSessionDisconnected(s: Sid)
      requires Valid() && I.Linked(Abs())
      modifies this`players, rooms.Values, players.Values, out
      ensures Valid() && Abs() == OnDisconnect(old(Abs()), s).lobby
      ensures OnlyNew()
      ensures out.sent == old(out.sent) + OnDisconnect(old(Abs()), s).effects
    {
      if s in players {
        var p := players[s];
        var room := p.room;
        assert PlayerOk(s) && Get(Abs(), s) == PlayerOf(p) && players[s] in players.Values;
        PointsIntoTheMap(p);
        I.LeaveForm(Abs(), s);
        I.LeaveLinked(Abs(), s);
        LeaveRoom(p);
        label left:
        InNoList(p);
        players := players - {s};
        PlayerErased@left(s);
        if room != null {
          assert RoomOk(room.key) && RoomAt(Abs(), room.key) == RoomOf(room);
          if room.capacity != 0 {
            BroadcastRoomState(room);
          }
        }
      }
    }

    /** No list has the player. */
    ghost predicate RoomsWithout(p: PlayerObject)
      reads this, rooms.Values
    {
      forall k :: k in rooms ==> p !in rooms[k].players
    }

    twostate lemma PlayerErased(s: Sid)
      requires old(Valid()) && unchanged(fsm.rows) && s in old(players) && players == old(players) - {s} && rooms == old(rooms)
      requires nextPlayerId == old(nextPlayerId) && nextGameRoomId == old(nextGameRoomId) && nextMatchId == old(nextMatchId)
      requires old(RoomsWithout(players[s]))
      requires forall t :: t in old(players) ==> unchanged(old(players)[t])
      requires forall k :: k in rooms ==> unchanged(rooms[k])
      ensures Valid() && Abs() == old(Abs()).(players := old(Abs()).players - {s})
    {
      forall t ensures PlayerOk(t) { assert old(PlayerOk(t)); }
      forall k ensures RoomOk(k) { assert old(RoomOk(k)); }
      forall k | k in rooms ensures RoomOf(rooms[k]) == old(RoomOf(rooms[k])) { assert old(RoomOk(k)); }
      forall t | t in players ensures PlayerOf(players[t]) == old(PlayerOf(players[t])) { assert old(PlayerOk(t)); }
      assert Abs().rooms == old(Abs()).rooms;
      assert Abs().players == old(Abs()).players - {s};
    }

    // ---- the game thread ----------------------------------------------------------------------------

    /** The handlers that look nothing up but the player. */
    method Dispatch(handler: Handler, s: Sid, body: seq<byte>, tick: nat)
      requires Valid() && s in players && handler != NoHandler && !handler.JoinRoom?
      modifies this, rooms.Values, players.Values, out
      ensures Shows(match handler {
                      case Login => OnLogin(old(Abs()), s, body)
                      case EnterRoomHandler => OnEnterRoom(old(Abs()), s, body)
                      case ChatHandler => OnChat(old(Abs()), s, body)
                      case Hello => OnHello(old(Abs()), s, body, tick)
                      case Ready => OnReady(old(Abs()), s, body)
                    }, false)
      ensures OnlyNew()
    {
      assert players[s] in players.Values;
      match handler
      case Login => HandleLogin(s, body);
      case EnterRoomHandler => HandleEnterRoom(s, body);
      case ChatHandler => HandleChat(s, body);
      case Hello => HandleHello(s, body, tick);
      case Ready => HandleReady(s, body);
    }

    method OnPacket(s: Sid, packet: Packet, tick: nat) returns (lost: bool, ghost env: Env)
      requires Valid()
      modifies this, rooms.Values, players.Values, out
      ensures PickOk(old(Abs()), env) && env.tick == tick
      ensures OnlyNew()
      ensures Shows(L.OnPacket(old(Abs()), s, packet, env), lost)
    {
      ghost var pick := AnyOpenRoom();
      lost, env := false, Env(pick, tick);
      if s !in players {
        return;
      }
      assert PlayerOf(players[s]) == Abs().players[s] && players[s] in players.Values;
      var handler := fsm.GetHandler(players[s].state, packet.id);
      if handler == NoHandler {
        return;
      }
      if handler.JoinRoom? {
        lost, pick := HandleJoinRoom(s, packet.body);
        env := Env(pick, tick);
        return;
      }
      Dispatch(handler, s, packet.body, tick);
    }

    method Run(job: Job, tick: nat) returns (lost: bool, ghost env: Env)
      requires Valid() && I.Linked(Abs())
      modifies this, rooms.Values, players.Values, out
      ensures PickOk(old(Abs()), env) && env.tick == tick && Shows(Step(old(Abs()), job, env), lost)
      ensures OnlyNew()
    {
      match job
      case Deliver(s, packet) => lost, env := OnPacket(s, packet, tick);
      case Disconnect(s) =>
        ghost var pick := AnyOpenRoom();
        lost, env := false, Env(pick, tick);
        OnSessionDisconnected(s);
      case Connect(s) =>
        ghost var pick := AnyOpenRoom();
        lost, env := false, Env(pick, tick);
        OnSessionConnected(s);
    }

    /** A job run at the end of a run of jobs. */
    method RunNext(job: Job, tick: nat, ghost jobs: seq<Job>, ghost envs: seq<Env>) returns (lost: bool, ghost env: Env)
      requires Valid() && Ran(jobs, envs, Abs(), out.sent)
      modifies this, rooms.Values, players.Values, out
      ensures OnlyNew() && RanOn(jobs + [job], envs + [env]) && env.tick == tick
      ensures if lost then T.After(jobs + [job], envs + [env]).Broken? else Valid() && Ran(jobs + [job], envs + [env], Abs(), out.sent)
    {
      ghost var was, sent := Abs(), out.sent;
      lost, env := Run(job, tick);
      RunMore(jobs, envs, was, sent, job, env);
    }

    /** One turn of the loop: a job popped and run, at this tick of the clock, or nothing when the queue is empty. */
    method LoopTurn(queue: Q.GameJobQueue, tick: nat, ghost jobs: seq<Job>, ghost envs: seq<Env>)
      returns (lost: bool, ghost jobs1: seq<Job>, ghost envs1: seq<Env>)
      requires Valid() && queue.Valid() && Ran(jobs, envs, Abs(), out.sent)
      modifies this, rooms.Values, players.Values, out, queue
      ensures queue.Valid() && queue.pushed == old(queue.pushed) && OnlyNew() && RanOn(jobs1, envs1)
      ensures old(queue.queue) == [] ==> !lost && jobs1 == jobs && envs1 == envs && queue.queue == []
      ensures old(queue.queue) != [] ==>
                && jobs1 == jobs + [old(queue.queue)[0]] && queue.queue == old(queue.queue)[1..]
                && Ticks(envs1) == Ticks(envs) + [tick]
      ensures if lost then T.After(jobs1, envs1).Broken? else Valid() && Ran(jobs1, envs1, Abs(), out.sent)
    {
      var found, next := queue.Pop();
      lost, jobs1, envs1 := false, jobs, envs;
      if !found {
        return;   // sleeps for a millisecond
      }
      ghost var env;
      lost, env := RunNext(next, tick, jobs, envs);
      jobs1, envs1 := jobs + [next], envs + [env];
    }

    /** Other threads push these jobs, and the loop takes a turn. */
    method NextTurn(queue: Q.GameJobQueue, more: seq<Job>, tick: nat, ghost first: seq<Job>, ghost arrivals: seq<seq<Job>>,
                    ghost ticks: seq<nat>, ghost jobs: seq<Job>, ghost envs: seq<Env>)
      returns (lost: bool, ghost jobs1: seq<Job>, ghost envs1: seq<Env>)
      requires Valid() && queue.Valid() && Ran(jobs, envs, Abs(), out.sent) && Queued(first, arrivals, jobs, queue.queue)
      requires |ticks| == |arrivals| && Ticks(envs) == TicksUsed(|first|, arrivals, ticks)
      modifies this, rooms.Values, players.Values, out, queue
      ensures queue.Valid() && OnlyNew() && RanOn(jobs1, envs1) && Queued(first, arrivals + [more], jobs1, queue.queue)
      ensures Ticks(envs1) == TicksUsed(|first|, arrivals + [more], ticks + [tick])
      ensures if lost then T.After(jobs1, envs1).Broken? else Valid() && Ran(jobs1, envs1, Abs(), out.sent)
    {
      ghost var waiting := queue.queue;
      Arrive(queue, more);
      lost, jobs1, envs1 := LoopTurn(queue, tick, jobs, envs);
      QueuedNext(first, arrivals, more, jobs, waiting, jobs1, queue.queue);
      TicksNext(first, arrivals, more, ticks, tick, jobs, waiting);
    }

    /** The loop, for as many turns as it finds the server running; before each of them other threads push the
        jobs given, and the clock shows the tick given. The jobs run are the first of those pushed, in order, one in every turn that finds one,
        at its tick; the objects are then what a run of these jobs makes of the first lobby, and the outbox says what each session
        was last shown. It ends early only when a room is lost. */
    method GameThreadLoop(queue: Q.GameJobQueue, arrivals: seq<seq<Job>>, ticks: seq<nat>)
      returns (lost: bool, ghost jobs: seq<Job>, ghost envs: seq<Env>)
      requires |ticks| == |arrivals|
      requires Valid() && Abs() == INITIAL && out.sent == [] && queue.Valid()
      modifies this, rooms.Values, players.Values, out, queue
      ensures queue.Valid() && RanOn(jobs, envs)
      ensures if lost then T.After(jobs, envs).Broken? else Valid() && Ran(jobs, envs, Abs(), out.sent)
      ensures !lost ==> Queued(old(queue.queue), arrivals, jobs, queue.queue) && Ticks(envs) == TicksUsed(|old(queue.queue)|, arrivals, ticks)
    {
      lost, jobs, envs := false, [], [];
      I.InitialInv();
      var turn := 0;
      while turn < |arrivals|
        invariant 0 <= turn <= |arrivals| && Valid() && queue.Valid() && OnlyNew()
        invariant RanOn(jobs, envs) && Ran(jobs, envs, Abs(), out.sent)
        invariant Queued(old(queue.queue), arrivals[..turn], jobs, queue.queue)
        invariant Ticks(envs) == TicksUsed(|old(queue.queue)|, arrivals[..turn], ticks[..turn])
      {
        lost, jobs, envs := NextTurn(queue, arrivals[turn], ticks[turn], old(queue.queue), arrivals[..turn], ticks[..turn], jobs, envs);
        if lost {
          return;
        }
        assert arrivals[..turn + 1] == arrivals[..turn] + [arrivals[turn]];
        assert ticks[..turn + 1] == ticks[..turn] + [ticks[turn]];
        turn := turn + 1;
      }
      assert arrivals[..turn] == arrivals && ticks[..turn] == ticks;
    }
  }

  /** Other threads push these jobs. */
  method Arrive(queue: Q.GameJobQueue, jobs: seq<Job>)
    requires queue.Valid()
    modifies queue
    ensures queue.Valid() && queue.queue == old(queue.queue) + jobs
  {
    var i := 0;
    while i < |jobs|
      invariant 0 <= i <= |jobs| && queue.Valid() && queue.queue == old(queue.queue) + jobs[..i]
    {
      queue.Push(jobs[i]);
      i := i + 1;
    }
    assert jobs[..i] == jobs;
  }

  function Joined(arrivals: seq<seq<Job>>): seq<Job> {
    if arrivals == [] then [] else Joined(arrivals[..|arrivals| - 1]) + arrivals[|arrivals| - 1]
  }

  /** The turns that find a job, when so many were queued at first. */
  function TurnsUsed(queued: nat, arrivals: seq<seq<Job>>): (n: nat)
    ensures n <= queued + |Joined(arrivals)| && n <= |arrivals|
  {
    if arrivals == [] then 0
    else
      var n := TurnsUsed(queued, arrivals[..|arrivals| - 1]);
      if n < queued + |Joined(arrivals)| then n + 1 else n
  }

  ghost function Ticks(envs: seq<Env>): (ticks: seq<nat>)
    ensures |ticks| == |envs|
  {
    seq(|envs|, i requires 0 <= i < |envs| => envs[i].tick)
  }

  /** The ticks of the turns that find a job. */
  function TicksUsed(queued: nat, arrivals: seq<seq<Job>>, ticks: seq<nat>): seq<nat>
    requires |ticks| == |arrivals|
  {
    if arrivals == [] then []
    else
      var n := |arrivals| - 1;
      TicksUsed(queued, arrivals[..n], ticks[..n]) +
      if TurnsUsed(queued, arrivals[..n]) < queued + |Joined(arrivals)| then [ticks[n]] else []
  }

  lemma TicksNext(first: seq<Job>, arrivals: seq<seq<Job>>, more: seq<Job>, ticks: seq<nat>, tick: nat, jobs: seq<Job>, left: seq<Job>)
    requires Queued(first, arrivals, jobs, left) && |ticks| == |arrivals|
    ensures TicksUsed(|first|, arrivals + [more], ticks + [tick]) ==
            TicksUsed(|first|, arrivals, ticks) + if left + more == [] then [] else [tick]
  {
    OneTickMore(|first|, arrivals, more, ticks, tick);
    assert |jobs + left| == |first + Joined(arrivals)|;
  }

  lemma OneTickMore(queued: nat, arrivals: seq<seq<Job>>, more: seq<Job>, ticks: seq<nat>, tick: nat)
    requires |ticks| == |arrivals|
    ensures TicksUsed(queued, arrivals + [more], ticks + [tick]) ==
            TicksUsed(queued, arrivals, ticks) + if TurnsUsed(queued, arrivals) < queued + |Joined(arrivals)| + |more| then [tick] else []
  {
    var all := arrivals + [more];
    assert all[..|arrivals|] == arrivals && (ticks + [tick])[..|ticks|] == ticks;
    assert Joined(all) == Joined(arrivals) + more;
  }

  /** First in, first out over these turns: the jobs run are the first of those pushed, one a turn while there are any. */
  ghost predicate Queued(first: seq<Job>, arrivals: seq<seq<Job>>, jobs: seq<Job>, left: seq<Job>) {
    jobs + left == first + Joined(arrivals) && |jobs| == TurnsUsed(|first|, arrivals)
  }

  lemma QueuedNext(first: seq<Job>, arrivals: seq<seq<Job>>, more: seq<Job>, jobs: seq<Job>, left: seq<Job>, jobs1: seq<Job>, left1: seq<Job>)
    requires Queued(first, arrivals, jobs, left)
    requires if left + more == [] then jobs1 == jobs && left1 == []
             else jobs1 == jobs + [(left + more)[0]] && left1 == (left + more)[1..]
    ensures Queued(first, arrivals + [more], jobs1, left1)
  {
    assert (arrivals + [more])[..|arrivals|] == arrivals;
    PlusAssociates(first, Joined(arrivals), more);
    PlusAssociates(jobs, left, more);
    assert |jobs| + |left + more| == |first| + |Joined(arrivals + [more])|;
    if left + more != [] {
      PlusAssociates(jobs, [(left + more)[0]], left1);
      assert [(left + more)[0]] + left1 == left + more;
    }
  }

  /** No turn is wasted: when nothing more is pushed, as many turns as there are jobs are enough for all. */
  lemma {:induction false} EnoughTurns(queued: nat, arrivals: seq<seq<Job>>)
    requires forall i :: 0 <= i < |arrivals| ==> arrivals[i] == []
    ensures Joined(arrivals) == []
    ensures TurnsUsed(queued, arrivals) == if |arrivals| < queued then |arrivals| else queued
  {
    if arrivals != [] {
      EnoughTurns(queued, arrivals[..|arrivals| - 1]);
    }
  }

  ghost predicate RanOn(jobs: seq<Job>, envs: seq<Env>) {
    |envs| == |jobs| && T.PicksOk(jobs, envs)
  }

  /** A run of these jobs ends in lobby l with these effects, and what holds of every run holds of l. */
  ghost predicate Ran(jobs: seq<Job>, envs: seq<Env>, l: L.Lobby, sent: seq<Effect>) {
    RanOn(jobs, envs) && T.After(jobs, envs) == T.Running(l, Shown(map[], sent)) && I.Inv(l)
  }

  /** One job more in a run. */
  lemma RunMore(jobs: seq<Job>, envs: seq<Env>, l: L.Lobby, sent: seq<Effect>, job: Job, env: Env)
    requires Ran(jobs, envs, l, sent) && PickOk(l, env)
    ensures RanOn(jobs + [job], envs + [env])
    ensures var o := Step(l, job, env);
            if o.Dangling? then T.After(jobs + [job], envs + [env]).Broken? else Ran(jobs + [job], envs + [env], o.lobby, sent + o.effects)
  {
    var jobs1, envs1 := jobs + [job], envs + [env];
    assert jobs1[..|jobs|] == jobs && envs1[..|jobs|] == envs;
    forall i | 0 <= i < |jobs1| && T.After(jobs1[..i], envs1[..i]).Running?
      ensures PickOk(T.After(jobs1[..i], envs1[..i]).lobby, envs1[i])
    {
      if i < |jobs| {
        assert jobs1[..i] == jobs[..i] && envs1[..i] == envs[..i];
      }
    }
    if Step(l, job, env).Done? {
      S.ShownAppend(map[], sent, Step(l, job, env).effects);
      I.StepKeepsInv(l, job, env);
    }
  }
}
