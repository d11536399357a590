/**
 What each job does, job by job: said on the fields of players and rooms and on the effects one by one, and not
 through the functions module Lobby computes with. CS_JOIN_ROOM has its theorem in module LobbyTheorems.
 */
module LobbyHandlers {
  import opened Bytes
  import opened Framing
  import opened Protocol
  import opened Lobby
  import opened LobbyInvariant
  import opened LobbySeparation
  import opened LobbyTheorems

  /** The same players; none but s has changed. */
  ghost predicate OthersStay(l: Lobby, l1: Lobby, s: Sid) {
    && s in l.players && l1.players.Keys == l.players.Keys
    && (forall m :: m in l.players && m != s ==> l1.players[m] == l.players[m])
  }

  /** The next player, room and match number. */
  predicate SameCounters(l: Lobby, l1: Lobby) {
    l1.nextPlayerId == l.nextPlayerId && l1.nextGameRoomId == l.nextGameRoomId && l1.nextMatchId == l.nextMatchId
  }

  // ---- which packet is handled when ---------------------------------------------------------------

  /** The pairs of state and packet that are handled. */
  predicate IsHandled(state: PlayerState, id: nat) {
    || (state == Start && (id == 1 || id == 10))
    || (state == LoggedIn && (id == 4 || id == 20))
    || (state == InRoom && (id == 2 || id == 4 || id == 22))
  }

  /** Every other packet, and every packet of a session without a player, changes nothing and is answered with nothing. */
  lemma TheRestIsIgnored(l: Lobby, s: Sid, packet: Packet, env: Env)
    requires s in l.players ==> !IsHandled(l.players[s].state, packet.id)
    ensures Step(l, Deliver(s, packet), env) == Done(l, [])
  {
    if s in l.players {
      match l.players[s].state
      case Start =>
      case LoggedIn =>
      case InRoom =>
      case InGame =>
      case Closing =>
    }
  }

  // ---- CS_LOGIN and CS_HELLO ----------------------------------------------------------------------

  /** A CS_LOGIN logs its player in under the name it brings, if it brings one; nothing else changes and nobody is told. */
  lemma LoginNames(l: Lobby, s: Sid, body: seq<byte>, env: Env)
    requires s in l.players && l.players[s].state == Start
    ensures var o := Step(l, Deliver(s, Packet(1, body)), env);
            && o.Done? && o.effects == [] && OthersStay(l, o.lobby, s) && o.lobby.rooms == l.rooms && SameCounters(l, o.lobby)
            && var p, p1 := l.players[s], o.lobby.players[s];
            && p1.state == LoggedIn && p1.name == (if |body| > 0 then body else p.name)
            && p1.id == p.id && p1.ready == p.ready && p1.room == p.room
  {
  }

  /** What decimal digits say. */
  function ReadDecimal(d: seq<byte>): nat
    requires IsDigits(d)
  {
    if d == [] then 0 else 10 * ReadDecimal(d[..|d| - 1]) + (d[|d| - 1] as int - '0' as int)
  }

  predicate IsDigits(d: seq<byte>) {
    forall i :: 0 <= i < |d| ==> '0' as int <= d[i] as int <= '9' as int
  }

  /** Digits without a leading zero, unless they are "0". */
  predicate Spells(d: seq<byte>, n: nat) {
    d != [] && IsDigits(d) && ReadDecimal(d) == n && (d[0] as int == '0' as int ==> |d| == 1)
  }

  lemma {:induction false} DecimalSpells(n: nat)
    ensures Spells(Decimal(n), n) && (n > 0 ==> Decimal(n)[0] as int != '0' as int)
  {
    if n < 10 {
      assert Decimal(n) == [48 + n] && [48 + n][..0] == [];
    } else {
      DecimalSpells(n / 10);
      DigitMore(Decimal(n / 10), n / 10, n % 10);
    }
  }

  lemma DigitMore(d: seq<byte>, n: nat, digit: nat)
    requires Spells(d, n) && d[0] as int != '0' as int && digit < 10
    ensures Spells(d + [48 + digit], 10 * n + digit) && (d + [48 + digit])[0] == d[0]
  {
    assert (d + [48 + digit])[..|d|] == d;
  }

  /** "Player " and the id in decimal. */
  predicate IsDefaultName(name: seq<byte>, id: nat) {
    && |name| > 7 && (forall i :: 0 <= i < 7 ==> name[i] as int == "Player "[i] as int)
    && Spells(name[7..], id)
  }

  lemma DefaultNameIs(id: nat)
    ensures IsDefaultName(DefaultName(id), id)
  {
    DecimalSpells(id);
    assert DefaultName(id)[7..] == Decimal(id);
  }

  /** Welcomed: logged in, under its own name or the default one, and told its id; nothing else has changed. */
  ghost predicate Welcomed(l: Lobby, s: Sid, l1: Lobby, fx: seq<Effect>, tick: nat) {
    && OthersStay(l, l1, s) && l1.rooms == l.rooms && SameCounters(l, l1)
    && var p, p1 := l.players[s], l1.players[s];
    && p1.state == LoggedIn && p1.id == p.id && p1.ready == p.ready && p1.room == p.room
    && (if |p.name| > 0 then p1.name == p.name else IsDefaultName(p1.name, p.id))
    && fx == [Send(s, Welcome(p.id, tick))]
  }

  lemma VersionOne(body: seq<byte>)
    ensures body == [1, 0] <==> |body| == 2 && ReadU16(body, 0) == PROTOCOL_VERSION
  {
    if |body| == 2 {
      assert body == [body[0], body[1]];
    }
  }

  /** A CS_HELLO is welcomed exactly when its body is the two bytes of version 1. Any other is answered with one
      error, which says whether it was the size or the version, and closes the session; nothing changes. */
  lemma HelloWelcomes(l: Lobby, s: Sid, body: seq<byte>, env: Env)
    requires s in l.players && l.players[s].state == Start
    ensures var o := Step(l, Deliver(s, Packet(10, body)), env);
            && o.Done?
            && if body == [1, 0] then Welcomed(l, s, o.lobby, o.effects, env.tick)
               else
                 && o.lobby == l
                 && o.effects == [Send(s, Error(10, if |body| != 2 then ERR_BAD_FORMAT else ERR_VERSION_MISMATCH)), Close(s)]
  {
    VersionOne(body);
    var p := l.players[s];
    DefaultNameIs(p.id);
    NamedIsWelcomed(l, s, if p.name == [] then DefaultName(p.id) else p.name, env.tick);
  }

  lemma NamedIsWelcomed(l: Lobby, s: Sid, name: seq<byte>, tick: nat)
    requires s in l.players && if l.players[s].name == [] then IsDefaultName(name, l.players[s].id) else name == l.players[s].name
    ensures Welcomed(l, s, SetPlayer(l, s, l.players[s].(name := name, state := LoggedIn)), [Send(s, Welcome(l.players[s].id, tick))], tick)
  {
  }

  // ---- CS_ENTER_ROOM ------------------------------------------------------------------------------

  /** The list without one entry for s, if it has one; the rest in order. */
  ghost predicate IsWithout(ms: seq<Sid>, ms1: seq<Sid>, s: Sid) {
    if s in ms then exists i :: 0 <= i < |ms| && ms[i] == s && ms1 == ms[..i] + ms[i + 1..] else ms1 == ms
  }

  lemma {:induction false} RemoveIsWithout(ms: seq<Sid>, s: Sid)
    ensures IsWithout(ms, Remove(ms, s), s)
  {
    if ms != [] {
      if ms[0] == s {
        assert ms[..0] + ms[1..] == ms[1..];
      } else {
        RemoveIsWithout(ms[1..], s);
        WithoutCons(ms, Remove(ms[1..], s), s);
      }
    }
  }

  lemma WithoutCons(ms: seq<Sid>, rest: seq<Sid>, s: Sid)
    requires ms != [] && ms[0] != s && IsWithout(ms[1..], rest, s)
    ensures IsWithout(ms, [ms[0]] + rest, s)
  {
    var tail := ms[1..];
    assert ms == [ms[0]] + tail;
    if s in tail {
      var i :| 0 <= i < |tail| && tail[i] == s && rest == tail[..i] + tail[i + 1..];
      assert ms[..i + 1] == [ms[0]] + tail[..i] && ms[i + 2..] == tail[i + 1..];
      PlusAssociates([ms[0]], tail[..i], tail[i + 1..]);
      assert ms[i + 1] == s && [ms[0]] + rest == ms[..i + 1] + ms[i + 1 + 1..];
    }
  }

  /** The members of room r after s has come in: last in room k, and taken out of every other. */
  ghost predicate MovedTo(l: Lobby, s: Sid, l1: Lobby, k: int, r: int)
    requires r in l1.rooms
  {
    var was := if r in l.rooms then l.rooms[r].members else [];
    if r == k then |l1.rooms[r].members| > 0 && l1.rooms[r].members[|l1.rooms[r].members| - 1] == s
                   && IsWithout(was, l1.rooms[r].members[..|l1.rooms[r].members| - 1], s)
    else IsWithout(was, l1.rooms[r].members, s)
  }

  /** The room is as it was but for its members; a new one is a chat room with its number cut to 16 bits. */
  ghost predicate KeepsKind(l: Lobby, l1: Lobby, r: int)
    requires r in l1.rooms
  {
    if r in l.rooms
    then l1.rooms[r].id == l.rooms[r].id && l1.rooms[r].capacity == l.rooms[r].capacity && l1.rooms[r].started == l.rooms[r].started
    else l1.rooms[r].id == r % 65536 && l1.rooms[r].capacity == 0 && !l1.rooms[r].started
  }

  /** s has moved to room k, made if there was none, whatever kind of room that is. */
  ghost predicate Moved(l: Lobby, s: Sid, l1: Lobby, k: int) {
    && OthersStay(l, l1, s) && SameCounters(l, l1)
    && l1.players[s] == Player(l.players[s].id, l.players[s].name, InRoom, l.players[s].ready, To(k))
    && l1.rooms.Keys == l.rooms.Keys + {k}
    && (forall r :: r in l1.rooms ==> KeepsKind(l, l1, r) && MovedTo(l, s, l1, k, r))
  }

  lemma LeavingIsWithout(l: Lobby, s: Sid, r: int)
    requires Linked(l) && s in l.players && r in l.rooms
    ensures var left := LeaveCurrent(l, s);
            && r in left.rooms && left.rooms[r] == l.rooms[r].(members := left.rooms[r].members)
            && IsWithout(l.rooms[r].members, left.rooms[r].members, s)
  {
    LeaveForm(l, s);
    if l.players[s].room == To(r) {
      RemoveIsWithout(l.rooms[r].members, s);
    } else {
      assert s !in l.rooms[r].members;
    }
  }

  lemma RoomAfterEntering(l: Lobby, s: Sid, k: int, r: int)
    requires Linked(l) && s in l.players && (r in l.rooms || r == k)
    ensures var l1 := EnterRoom(l, s, k); r in l1.rooms && KeepsKind(l, l1, r) && MovedTo(l, s, l1, k, r)
  {
    var left := LeaveCurrent(l, s);
    var made := GetOrCreateRoom(left, k);
    LeaveForm(l, s);
    LeaveLinked(l, s);
    CreateLinked(left, k);
    JoinForm(made, s, k);
    if r in l.rooms {
      LeavingIsWithout(l, s, r);
    }
    LastOut(made.rooms[k].members, s);
  }

  lemma LastOut(ms: seq<Sid>, s: Sid)
    ensures var all := ms + [s]; all[|all| - 1] == s && all[..|all| - 1] == ms
  {
  }

  lemma EnterMoves(l: Lobby, s: Sid, k: int)
    requires Linked(l) && s in l.players
    ensures var l1 := EnterRoom(l, s, k); Moved(l, s, SetPlayer(l1, s, Get(l1, s).(state := InRoom)), k)
  {
    var l1 := EnterRoom(l, s, k);
    var l2 := SetPlayer(l1, s, Get(l1, s).(state := InRoom));
    EnterRoomMoves(l, s, k);
    EnterRoomCounts(l, s, k);
    forall r | r in l2.rooms
      ensures KeepsKind(l, l2, r) && MovedTo(l, s, l2, k, r)
    {
      assert r in l2.rooms.Keys;
      RoomAfterEntering(l, s, k, r);
    }
  }

  lemma EnterRoomCounts(l: Lobby, s: Sid, k: int)
    ensures SameCounters(l, EnterRoom(l, s, k))
  {
  }

  /** A CS_ENTER_ROOM of a player with a name that brings a room number moves the player there; any other changes
      nothing. Nobody is told. */
  lemma EnterRoomMovesThere(l: Lobby, s: Sid, body: seq<byte>, env: Env)
    requires Core(l) && s in l.players && l.players[s].state in {LoggedIn, InRoom}
    ensures var o := Step(l, Deliver(s, Packet(4, body)), env);
            && o.Done? && o.effects == []
            && if |l.players[s].name| > 0 && |body| >= 4 then Moved(l, s, o.lobby, ReadI32(body, 0)) else o.lobby == l
  {
    if l.players[s].name != [] && |body| >= 4 {
      EnterMoves(l, s, ReadI32(body, 0));
    } else {
      assert SetPlayer(l, s, l.players[s]) == l;
    }
  }

  // ---- CS_CHAT ------------------------------------------------------------------------------------

  lemma {:induction false} OthersIsWithout(ms: seq<Sid>, s: Sid)
    requires NoDup(ms)
    ensures Others(ms, s) == Remove(ms, s)
  {
    if ms != [] {
      assert ms == [ms[0]] + ms[1..];
      OthersIsWithout(ms[1..], s);
      if ms[0] == s {
        NoOthers(ms[1..], s);
      }
    }
  }

  lemma {:induction false} NoOthers(ms: seq<Sid>, s: Sid)
    requires s !in ms
    ensures Others(ms, s) == ms
  {
    if ms != [] {
      assert ms == [ms[0]] + ms[1..];
      NoOthers(ms[1..], s);
    }
  }

  /** The text is all of the message that fits a packet of 4096 bytes behind 12 bytes and the name. */
  predicate IsClipped(name: seq<byte>, message: seq<byte>, text: seq<byte>) {
    text <= message && 12 + |name| + |text| <= 4096 && (text == message || 12 + |name| + |text| == 4096)
  }

  /** Each member of the room but s, in the order of the list, is sent the chat. */
  ghost predicate Chats(ms: seq<Sid>, s: Sid, fx: seq<Effect>, id: nat, name: seq<byte>, message: seq<byte>) {
    exists to: seq<Sid> ::
      && IsWithout(ms, to, s) && |fx| == |to|
      && forall i :: 0 <= i < |fx| ==>
           && fx[i].Send? && fx[i].to == to[i] && fx[i].msg.Chat?
           && fx[i].msg.senderId == id && fx[i].msg.senderName == name && IsClipped(name, message, fx[i].msg.text)
  }

  /** A CS_CHAT with a text, of a player whose name leaves room for one, goes to the others in its room in order;
      any other goes nowhere. It changes nothing. */
  lemma ChatIsSaid(l: Lobby, s: Sid, body: seq<byte>, env: Env)
    requires Core(l) && s in l.players && l.players[s].state == InRoom
    ensures l.players[s].room.To? && l.players[s].room.key in l.rooms
    ensures var o := Step(l, Deliver(s, Packet(2, body)), env);
            var p := l.players[s];
            && o.Done? && o.lobby == l
            && if |p.name| > 0 && |body| > 0 && 12 + |p.name| < 4096
               then Chats(l.rooms[p.room.key].members, s, o.effects, p.id, p.name, body)
               else o.effects == []
  {
    assert Step(l, Deliver(s, Packet(2, body)), env) == OnChat(l, s, body);
    var p := l.players[s];
    if p.name != [] && body != [] && CHAT_OVERHEAD + |p.name| < MAX_PACKET_SIZE {
      OthersAreTold(l.rooms[p.room.key].members, s, p.id, p.name, body);
    }
  }

  lemma OthersAreTold(ms: seq<Sid>, s: Sid, id: nat, name: seq<byte>, message: seq<byte>)
    requires NoDup(ms) && CHAT_OVERHEAD + |name| < MAX_PACKET_SIZE
    ensures Chats(ms, s, SendAll(Others(ms, s), Chat(id, name, Clip(name, message))), id, name, message)
  {
    OthersIsWithout(ms, s);
    RemoveIsWithout(ms, s);
    assert IsClipped(name, message, Clip(name, message));
  }

  // ---- CS_READY -----------------------------------------------------------------------------------

  /** With this flag for s, everyone in the room is ready and it is full. */
  ghost predicate MakesDue(l: Lobby, s: Sid, k: int, flag: bool)
    requires k in l.rooms
  {
    var ms := l.rooms[k].members;
    && l.rooms[k].capacity != 0 && |ms| == l.rooms[k].capacity
    && (forall i :: 0 <= i < |ms| ==> ms[i] in l.players && if ms[i] == s then flag else l.players[ms[i]].ready)
  }

  /** The flag of s, and the state of those who now play, are all that has changed of players. */
  ghost predicate PlayersReady(l: Lobby, s: Sid, k: int, flag: bool, starts: bool, l1: Lobby)
    requires k in l.rooms
  {
    && l1.players.Keys == l.players.Keys
    && (forall m :: m in l.players ==>
          && l1.players[m].id == l.players[m].id && l1.players[m].name == l.players[m].name && l1.players[m].room == l.players[m].room
          && l1.players[m].ready == (if m == s then flag else l.players[m].ready)
          && l1.players[m].state == if starts && m in l.rooms[k].members then InGame else l.players[m].state)
  }

  /** Each member, in order, is told the match and the ids of all members in order. */
  ghost predicate TellsStart(l: Lobby, k: int, fx: seq<Effect>)
    requires k in l.rooms
  {
    var ms := l.rooms[k].members;
    && |fx| == |ms|
    && (forall i :: 0 <= i < |fx| ==>
          && fx[i].Send? && fx[i].to == ms[i] && fx[i].msg.GameStart?
          && fx[i].msg.matchId == l.nextMatchId && |fx[i].msg.playerIds| == |ms|
          && forall j :: 0 <= j < |ms| ==> ms[j] in l.players && fx[i].msg.playerIds[j] == l.players[ms[j]].id)
  }

  /** The flag is set and shown to the room in order; then, if that makes the room due, its match starts. */
  ghost predicate ReadyIs(l: Lobby, s: Sid, k: int, flag: bool, l1: Lobby, fx: seq<Effect>)
    requires k in l.rooms
  {
    var starts := MakesDue(l, s, k, flag);
    var n := |l.rooms[k].members|;
    && PlayersReady(l, s, k, flag, starts, l1)
    && l1.rooms == l.rooms[k := l.rooms[k].(started := starts)]
    && l1.nextPlayerId == l.nextPlayerId && l1.nextGameRoomId == l.nextGameRoomId
    && l1.nextMatchId == l.nextMatchId + (if starts then 1 else 0)
    && n <= |fx| && TellsMembers(l1, k, fx[..n]) && if starts then TellsStart(l, k, fx[n..]) else |fx| == n
  }

  /** A CS_READY with one byte in a room not started sets the flag to what the byte says. Otherwise one error says
      which it was, and nothing changes. */
  lemma ReadySets(l: Lobby, s: Sid, body: seq<byte>, env: Env)
    requires Linked(l) && s in l.players && l.players[s].state == InRoom
    ensures var o := Step(l, Deliver(s, Packet(22, body)), env);
            var p := l.players[s];
            && o.Done?
            && if p.room.Null? then o == Done(l, [Send(s, Error(22, ERR_NOT_ALLOWED))])
               else
                 && p.room.key in l.rooms
                 && if l.rooms[p.room.key].started then o == Done(l, [Send(s, Error(22, ERR_MATCH_ENDED))])
                    else if |body| != 1 then o == Done(l, [Send(s, Error(22, ERR_BAD_FORMAT))])
                    else ReadyIs(l, s, p.room.key, body[0] != 0, o.lobby, o.effects)
  {
    var p := l.players[s];
    if p.room.To? && !l.rooms[p.room.key].started && |body| == 1 {
      FlagIsSet(l, s, p.room.key, body[0] != 0);
    }
  }

  lemma FlagIsSet(l: Lobby, s: Sid, k: int, flag: bool)
    requires Linked(l) && s in l.players && l.players[s].room == To(k) && !l.rooms[k].started
    ensures var l1 := SetPlayer(l, s, l.players[s].(ready := flag));
            ReadyIs(l, s, k, flag, TryStartGame(l1, k), BroadcastRoomState(l1, k) + StartEffects(l1, k))
  {
    var l1 := SetPlayer(l, s, l.players[s].(ready := flag));
    var ms := l.rooms[k].members;
    var told, more := BroadcastRoomState(l1, k), StartEffects(l1, k);
    FlagMakesDue(l, s, k, flag);
    FlagAndStart(l, s, k, flag);
    FlagIsTold(l, s, k, flag);
    assert |told| == |ms| && (told + more)[..|ms|] == told && (told + more)[|ms|..] == more;
  }

  lemma MembersAreThere(l: Lobby, k: int)
    requires Linked(l) && k in l.rooms
    ensures forall i :: 0 <= i < |l.rooms[k].members| ==> l.rooms[k].members[i] in l.players
  {
    assert forall i :: 0 <= i < |l.rooms[k].members| ==> l.rooms[k].members[i] in l.rooms[k].members;
  }

  lemma FlagMakesDue(l: Lobby, s: Sid, k: int, flag: bool)
    requires Linked(l) && s in l.players && l.players[s].room == To(k) && !l.rooms[k].started
    ensures Due(SetPlayer(l, s, l.players[s].(ready := flag)), k) <==> MakesDue(l, s, k, flag)
  {
    MembersAreThere(l, k);
  }

  lemma FlagAndStart(l: Lobby, s: Sid, k: int, flag: bool)
    requires Linked(l) && s in l.players && l.players[s].room == To(k) && !l.rooms[k].started
    ensures var l2 := TryStartGame(SetPlayer(l, s, l.players[s].(ready := flag)), k);
            var starts := MakesDue(l, s, k, flag);
            && PlayersReady(l, s, k, flag, starts, l2)
            && l2.rooms == l.rooms[k := l.rooms[k].(started := starts)]
            && l2.nextPlayerId == l.nextPlayerId && l2.nextGameRoomId == l.nextGameRoomId
            && l2.nextMatchId == l.nextMatchId + (if starts then 1 else 0)
  {
    FlagMakesDue(l, s, k, flag);
    assert l.rooms == l.rooms[k := l.rooms[k].(started := false)];
  }

  lemma FlagIsTold(l: Lobby, s: Sid, k: int, flag: bool)
    requires Linked(l) && s in l.players && l.players[s].room == To(k) && !l.rooms[k].started
    ensures var l1 := SetPlayer(l, s, l.players[s].(ready := flag));
            && TellsMembers(TryStartGame(l1, k), k, BroadcastRoomState(l1, k))
            && if MakesDue(l, s, k, flag) then TellsStart(l, k, StartEffects(l1, k)) else StartEffects(l1, k) == []
  {
    var l1 := SetPlayer(l, s, l.players[s].(ready := flag));
    FlagMakesDue(l, s, k, flag);
    MembersAreThere(l, k);
    ViewDepicts(l1, k);
    assert Depicts(TryStartGame(l1, k), k, View(l1, k));
  }

  // ---- sessions come and go -----------------------------------------------------------------------

  /** A Connect adds a player in the first state, with the next id, no name and no room; one that is there stays as
      it is. Nobody is told. */
  lemma ConnectAdds(l: Lobby, s: Sid, env: Env)
    ensures var o := Step(l, Connect(s), env);
            && o.Done? && o.effects == [] && o.lobby.rooms == l.rooms
            && o.lobby.nextPlayerId == l.nextPlayerId + 1
            && o.lobby.nextGameRoomId == l.nextGameRoomId && o.lobby.nextMatchId == l.nextMatchId
            && o.lobby.players.Keys == l.players.Keys + {s}
            && (forall m :: m in l.players ==> o.lobby.players[m] == l.players[m])
            && (s !in l.players ==> o.lobby.players[s] == Player(l.nextPlayerId, [], Start, false, Null))
  {
  }

  /** The room s was in has lost it, keeps the others in order, and is told if it is a game room; no other has changed. */
  ghost predicate RoomIsLeft(l: Lobby, s: Sid, l1: Lobby, fx: seq<Effect>) {
    && s in l.players && l1.rooms.Keys == l.rooms.Keys
    && match l.players[s].room
       case Null => l1.rooms == l.rooms && fx == []
       case To(k) =>
         && k in l.rooms && (forall r :: r in l.rooms && r != k ==> l1.rooms[r] == l.rooms[r])
         && KeepsKind(l, l1, k) && IsWithout(l.rooms[k].members, l1.rooms[k].members, s)
         && if l.rooms[k].capacity != 0 then TellsMembers(l1, k, fx) else fx == []
  }

  /** A Disconnect takes its player out, and out of its room. */
  lemma DisconnectRemoves(l: Lobby, s: Sid, env: Env)
    requires Core(l)
    ensures var o := Step(l, Disconnect(s), env);
            && o.Done?
            && if s !in l.players then o == Done(l, [])
               else
                 && o.lobby.players.Keys == l.players.Keys - {s} && SameCounters(l, o.lobby)
                 && (forall m :: m in l.players && m != s ==> o.lobby.players[m] == l.players[m])
                 && RoomIsLeft(l, s, o.lobby, o.effects)
  {
    if s in l.players {
      LeaveForm(l, s);
      LeaverIsOut(l, s);
    }
  }

  lemma LeaverIsOut(l: Lobby, s: Sid)
    requires Core(l) && s in l.players
    ensures var o := OnDisconnect(l, s); o.Done? && RoomIsLeft(l, s, o.lobby, o.effects)
  {
    LeaveForm(l, s);
    DisconnectKeeps(l, s);
    if l.players[s].room.To? {
      LeavingIsWithout(l, s, l.players[s].room.key);
      BroadcastTellsMembers(OnDisconnect(l, s).lobby, l.players[s].room.key);
    }
  }

  /** The server starts with room 1, a chat room, and nobody in it. */
  lemma FirstLobby()
    ensures INITIAL.players.Keys == {} && INITIAL.rooms.Keys == {1} && INITIAL.rooms[1] == Room(1, [], 0, false)
    ensures INITIAL.nextPlayerId == 1 && INITIAL.nextGameRoomId == 100 && INITIAL.nextMatchId == 1
  {
  }
}
