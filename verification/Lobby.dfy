/**
 The game thread's state and what one job does to it: players, rooms, the per-player state machine,
 the waiting rooms and the start of a match. This is the specification the classes of module
 GameServer refine and the game thread of module Server runs.
 */
module Lobby {
  import opened Bytes
  import opened Framing
  import opened Protocol

  /** A Room*: null, or the room under a key. */
  datatype RoomPtr = Null | To(key: int)

  datatype PlayerState = Start | LoggedIn | InRoom | InGame | Closing

  datatype Player = Player(id: nat, name: seq<byte>, state: PlayerState, ready: bool, room: RoomPtr)

  datatype Room = Room(id: nat, members: seq<Sid>, capacity: nat, started: bool) {
    predicate IsFull() {
      capacity != 0 && |members| >= capacity
    }

    predicate IsGame() {
      capacity != 0
    }

    /** What the automatic assignment looks for. */
    predicate IsOpen() {
      capacity != 0 && !started && !IsFull()
    }
  }

  datatype Lobby = Lobby(
    players: map<Sid, Player>, rooms: map<int, Room>,
    nextPlayerId: nat, nextGameRoomId: int, nextMatchId: nat)

  const GAME_ROOM_CAPACITY := 2
  const FIRST_GAME_ROOM := 100

  const INITIAL := Lobby(map[], map[1 := NewRoom(1)], 1, FIRST_GAME_ROOM, 1)

  datatype Entry = Entry(id: nat, ready: bool, name: seq<byte>)
  datatype RoomView = RoomView(roomId: nat, capacity: nat, entries: seq<Entry>)

  datatype Msg =
    | Chat(senderId: nat, senderName: seq<byte>, text: seq<byte>)
    | Welcome(playerId: nat, tick: nat)
    | RoomState(view: RoomView)
    | GameStart(matchId: nat, playerIds: seq<nat>)
    | Error(rejected: nat, code: nat)

  datatype Effect = Send(to: Sid, msg: Msg) | Close(to: Sid)

  /** What the environment decides: the first open room the hash map happens to yield, and the clock. */
  datatype Env = Env(pick: RoomPtr, tick: nat)

  /** Dangling: the emplace of a new room found its key taken, and the room just made is gone. */
  datatype Outcome = Done(lobby: Lobby, effects: seq<Effect>) | Dangling

  // ---- looking up -------------------------------------------------------------------------------

  /** The player behind a session. A room lists live players only, which KeepsLinked proves. */
  function Get(l: Lobby, s: Sid): Player {
    if s in l.players then l.players[s] else Player(0, [], Start, false, Null)
  }

  function RoomAt(l: Lobby, k: int): Room {
    if k in l.rooms then l.rooms[k] else NewRoom(k)
  }

  /** Room(uint16_t id): the key is cut to 16 bits. */
  function NewRoom(k: int): Room {
    Room(k % 65536, [], 0, false)
  }

  function SetPlayer(l: Lobby, s: Sid, p: Player): Lobby {
    l.(players := l.players[s := p])
  }

  function SetRoom(l: Lobby, k: int, r: Room): Lobby {
    l.(rooms := l.rooms[k := r])
  }

  function Remove(ms: seq<Sid>, s: Sid): seq<Sid> {
    if ms == [] then []
    else if ms[0] == s then ms[1..]
    else [ms[0]] + Remove(ms[1..], s)
  }

  function Others(ms: seq<Sid>, s: Sid): seq<Sid> {
    if ms == [] then []
    else if ms[0] == s then Others(ms[1..], s)
    else [ms[0]] + Others(ms[1..], s)
  }

  // ---- rooms ------------------------------------------------------------------------------------

  function Leave(l: Lobby, s: Sid, k: int): Lobby {
    var r := RoomAt(l, k);
    if s in r.members
    then SetPlayer(SetRoom(l, k, r.(members := Remove(r.members, s))), s, Get(l, s).(room := Null))
    else l
  }

  function LeaveCurrent(l: Lobby, s: Sid): Lobby {
    match Get(l, s).room
    case To(k) => Leave(l, s, k)
    case Null => l
  }

  function Join(l: Lobby, s: Sid, k: int): Lobby {
    var r := RoomAt(l, k);
    if s in r.members then l
    else SetPlayer(SetRoom(l, k, r.(members := r.members + [s])), s, Get(l, s).(room := To(k)))
  }

  function GetOrCreateRoom(l: Lobby, k: int): Lobby {
    if k in l.rooms then l else SetRoom(l, k, NewRoom(k))
  }

  function EnterRoom(l: Lobby, s: Sid, k: int): Lobby {
    Join(GetOrCreateRoom(LeaveCurrent(l, s), k), s, k)
  }

  function EntryOf(l: Lobby, s: Sid): Entry {
    Entry(Get(l, s).id, Get(l, s).ready, Get(l, s).name)
  }

  function View(l: Lobby, k: int): (v: RoomView)
    ensures |v.entries| == |RoomAt(l, k).members|
  {
    var r := RoomAt(l, k);
    RoomView(r.id, r.capacity, seq(|r.members|, i requires 0 <= i < |r.members| => EntryOf(l, r.members[i])))
  }

  function SendAll(to: seq<Sid>, msg: Msg): (fx: seq<Effect>)
    ensures |fx| == |to|
    ensures forall i :: 0 <= i < |to| ==> fx[i] == Send(to[i], msg)
  {
    seq(|to|, i requires 0 <= i < |to| => Send(to[i], msg))
  }

  function BroadcastRoomState(l: Lobby, k: int): seq<Effect> {
    SendAll(RoomAt(l, k).members, RoomState(View(l, k)))
  }

  // ---- chat -------------------------------------------------------------------------------------

  const CHAT_OVERHEAD := HEADER_SIZE + 4 + 2 + 2

  function Clip(name: seq<byte>, text: seq<byte>): seq<byte>
    requires CHAT_OVERHEAD + |name| < MAX_PACKET_SIZE
  {
    var longest := MAX_PACKET_SIZE - CHAT_OVERHEAD - |name|;
    if |text| > longest then text[..longest] else text
  }

  function BroadcastChat(l: Lobby, s: Sid, k: int, text: seq<byte>): seq<Effect> {
    var p := Get(l, s);
    if CHAT_OVERHEAD + |p.name| >= MAX_PACKET_SIZE then []
    else SendAll(Others(RoomAt(l, k).members, s), Chat(p.id, p.name, Clip(p.name, text)))
  }

  // ---- packet handlers --------------------------------------------------------------------------

  function OnLogin(l: Lobby, s: Sid, body: seq<byte>): Outcome {
    var p := Get(l, s);
    Done(SetPlayer(l, s, p.(name := if body == [] then p.name else body, state := LoggedIn)), [])
  }

  function OnEnterRoom(l: Lobby, s: Sid, body: seq<byte>): Outcome {
    var entered := if Get(l, s).name == [] || |body| < 4 then l else EnterRoom(l, s, ReadI32(body, 0));
    var p := Get(entered, s);
    Done(if p.room.To? then SetPlayer(entered, s, p.(state := InRoom)) else entered, [])
  }

  function OnChat(l: Lobby, s: Sid, body: seq<byte>): Outcome {
    var p := Get(l, s);
    Done(l, if p.name == [] || p.room.Null? || body == [] then [] else BroadcastChat(l, s, p.room.key, body))
  }

  function Decimal(n: nat): (d: seq<byte>)
    ensures d != []
  {
    (if n < 10 then [] else Decimal(n / 10)) + [48 + n % 10]
  }

  /** "Player " and the id. */
  function DefaultName(id: nat): (n: seq<byte>)
    ensures n != []
  {
    [80, 108, 97, 121, 101, 114, 32] + Decimal(id)
  }

  function OnHello(l: Lobby, s: Sid, body: seq<byte>, tick: nat): Outcome {
    if |body| != 2 then Done(l, [Send(s, Error(CS_HELLO, ERR_BAD_FORMAT)), Close(s)])
    else if ReadU16(body, 0) != PROTOCOL_VERSION then Done(l, [Send(s, Error(CS_HELLO, ERR_VERSION_MISMATCH)), Close(s)])
    else
      var p := Get(l, s);
      Done(SetPlayer(l, s, p.(name := if p.name == [] then DefaultName(p.id) else p.name, state := LoggedIn)),
           [Send(s, Welcome(p.id, tick))])
  }

  datatype Acquired = Acquired(lobby: Lobby, k: int) | Refused | Lost

  function NewGameRoom(k: int): Room {
    NewRoom(k).(capacity := GAME_ROOM_CAPACITY)
  }

  function AcquireGameRoom(l: Lobby, requested: int, pick: RoomPtr): Acquired {
    if requested == 0 then
      match pick {
        case To(k) => Acquired(l, k)
        case Null =>
          var k := l.nextGameRoomId;
          if k in l.rooms then Lost
          else Acquired(SetRoom(l.(nextGameRoomId := k + 1), k, NewGameRoom(k)), k)
      }
    else if requested !in l.rooms then Acquired(SetRoom(l, requested, NewGameRoom(requested)), requested)
    else
      var r := l.rooms[requested];
      if r.IsGame() then Acquired(l, requested)
      else if |r.members| > 0 then Refused
      else Acquired(SetRoom(l, requested, r.(capacity := GAME_ROOM_CAPACITY)), requested)
  }

  function Reject(l: Lobby, s: Sid, id: nat, code: nat): Outcome {
    Done(l, [Send(s, Error(id, code))])
  }

  /** The request is for a room that can be looked for. */
  function JoinRequested(l: Lobby, s: Sid, requested: int, pick: RoomPtr): Outcome {
    match AcquireGameRoom(l, requested, pick)
    case Lost => Dangling
    case Refused => Reject(l, s, CS_JOIN_ROOM, ERR_NO_SUCH_ROOM)
    case Acquired(l1, k) =>
      if RoomAt(l1, k).started then Reject(l1, s, CS_JOIN_ROOM, ERR_MATCH_ENDED)
      else if RoomAt(l1, k).IsFull() then Reject(l1, s, CS_JOIN_ROOM, ERR_ROOM_FULL)
      else
        var joined := Seat(l1, s, k);
        Done(joined, BroadcastRoomState(joined, k))
  }

  function OnJoinRoom(l: Lobby, s: Sid, body: seq<byte>, pick: RoomPtr): Outcome {
    if |body| != 4 then Reject(l, s, CS_JOIN_ROOM, ERR_BAD_FORMAT)
    else if ReadI32(body, 0) < 0 then Reject(l, s, CS_JOIN_ROOM, ERR_NO_SUCH_ROOM)
    else JoinRequested(l, s, ReadI32(body, 0), pick)
  }

  /** Leave the old room, drop the ready flag, join, and be in a room. */
  function Seat(l: Lobby, s: Sid, k: int): Lobby {
    var left := LeaveCurrent(l, s);
    var joined := Join(SetPlayer(left, s, Get(left, s).(ready := false)), s, k);
    SetPlayer(joined, s, Get(joined, s).(state := InRoom))
  }

  predicate AllReady(l: Lobby, ms: seq<Sid>) {
    forall i :: 0 <= i < |ms| ==> Get(l, ms[i]).ready
  }

  /** The waiting room that must become a match: a game room, full to its capacity, everyone ready. */
  predicate Due(l: Lobby, k: int) {
    var r := RoomAt(l, k);
    !r.started && r.IsGame() && |r.members| == r.capacity && AllReady(l, r.members)
  }

  function AllInGame(players: map<Sid, Player>, ms: seq<Sid>): map<Sid, Player> {
    map s | s in players :: if s in ms then players[s].(state := InGame) else players[s]
  }

  function Started(l: Lobby, k: int): Lobby {
    var r := RoomAt(l, k);
    SetRoom(l, k, r.(started := true)).(players := AllInGame(l.players, r.members), nextMatchId := l.nextMatchId + 1)
  }

  function IdsOf(l: Lobby, ms: seq<Sid>): seq<nat> {
    seq(|ms|, i requires 0 <= i < |ms| => Get(l, ms[i]).id)
  }

  function TryStartGame(l: Lobby, k: int): Lobby {
    if Due(l, k) then Started(l, k) else l
  }

  function StartEffects(l: Lobby, k: int): seq<Effect> {
    var ms := RoomAt(l, k).members;
    if Due(l, k) then SendAll(ms, GameStart(l.nextMatchId, IdsOf(l, ms))) else []
  }

  function OnReady(l: Lobby, s: Sid, body: seq<byte>): Outcome {
    var p := Get(l, s);
    if p.room.Null? then Reject(l, s, CS_READY, ERR_NOT_ALLOWED)
    else if RoomAt(l, p.room.key).started then Reject(l, s, CS_READY, ERR_MATCH_ENDED)
    else if |body| != 1 then Reject(l, s, CS_READY, ERR_BAD_FORMAT)
    else
      var k := p.room.key;
      var l1 := SetPlayer(l, s, p.(ready := body[0] != 0));
      Done(TryStartGame(l1, k), BroadcastRoomState(l1, k) + StartEffects(l1, k))
  }

  // ---- dispatch ---------------------------------------------------------------------------------

  datatype Handler = NoHandler | Login | EnterRoomHandler | ChatHandler | Hello | JoinRoom | Ready

  /** The state machine: which packet is handled in which state. */
  function GetHandler(state: PlayerState, packetId: nat): Handler {
    match state
    case Start => if packetId == CS_LOGIN then Login else if packetId == CS_HELLO then Hello else NoHandler
    case LoggedIn =>
      if packetId == CS_ENTER_ROOM then EnterRoomHandler else if packetId == CS_JOIN_ROOM then JoinRoom else NoHandler
    case InRoom =>
      if packetId == CS_CHAT then ChatHandler
      else if packetId == CS_ENTER_ROOM then EnterRoomHandler
      else if packetId == CS_READY then Ready
      else NoHandler
    case InGame => NoHandler
    case Closing => NoHandler
  }

  function OnPacket(l: Lobby, s: Sid, packet: Packet, env: Env): Outcome {
    if s !in l.players then Done(l, [])
    else
      match GetHandler(l.players[s].state, packet.id)
      case NoHandler => Done(l, [])
      case Login => OnLogin(l, s, packet.body)
      case EnterRoomHandler => OnEnterRoom(l, s, packet.body)
      case ChatHandler => OnChat(l, s, packet.body)
      case Hello => OnHello(l, s, packet.body, env.tick)
      case JoinRoom => OnJoinRoom(l, s, packet.body, env.pick)
      case Ready => OnReady(l, s, packet.body)
  }

  function OnConnect(l: Lobby, s: Sid): Lobby {
    l.(players := if s in l.players then l.players else l.players[s := Player(l.nextPlayerId, [], Start, false, Null)],
       nextPlayerId := l.nextPlayerId + 1)
  }

  function OnDisconnect(l: Lobby, s: Sid): Outcome {
    if s !in l.players then Done(l, [])
    else
      var left := LeaveCurrent(l, s);
      var gone := left.(players := left.players - {s});
      Done(gone,
           match l.players[s].room
           case To(k) => if RoomAt(gone, k).IsGame() then BroadcastRoomState(gone, k) else []
           case Null => [])
  }

  function Step(l: Lobby, job: Job, env: Env): Outcome {
    match job
    case Connect(s) => Done(OnConnect(l, s), [])
    case Deliver(s, packet) => OnPacket(l, s, packet, env)
    case Disconnect(s) => OnDisconnect(l, s)
  }

  /** The pick is an open room, or there is none. */
  ghost predicate PickOk(l: Lobby, env: Env) {
    match env.pick
    case To(k) => k in l.rooms && l.rooms[k].IsOpen()
    case Null => forall k :: k in l.rooms ==> !l.rooms[k].IsOpen()
  }

  // ---- runs -------------------------------------------------------------------------------------

  /** The last SC_ROOM_STATE handed to each session. */
  function Shown(views: map<Sid, RoomView>, fx: seq<Effect>): map<Sid, RoomView> {
    if fx == [] then views
    else
      var e := fx[|fx| - 1];
      var before := Shown(views, fx[..|fx| - 1]);
      if e.Send? && e.msg.RoomState? then before[e.to := e.msg.view] else before
  }
}
