/** What the lobby's messages say on the wire: room states that read back, and starts that name the room shown. */
module LobbyWire {
  import opened Bytes
  import opened Framing
  import opened Protocol
  import opened L = Lobby
  import opened LobbyInvariant
  import opened LobbySeparation
  import opened LobbyTheorems
  import opened LobbyCodec

  /** The 32-bit counters have not wrapped. */
  predicate CountersFit(l: L.Lobby) {
    l.nextPlayerId <= 0x1_0000_0000 && l.nextMatchId < 0x1_0000_0000
  }

  ghost predicate NamesWithin(l: L.Lobby, longest: nat) {
    forall s :: s in l.players ==> |l.players[s].name| <= longest
  }

  /** Every name came in a packet or was made from an id. */
  ghost predicate NamesFit(l: L.Lobby) {
    NamesWithin(l, MAX_PACKET_SIZE - HEADER_SIZE)
  }

  function Tens(k: nat): nat {
    if k == 0 then 1 else 10 * Tens(k - 1)
  }

  lemma {:induction false} DecimalLength(n: nat, k: nat)
    requires k >= 1 && n < Tens(k)
    ensures |Decimal(n)| <= k
  {
    if n >= 10 {
      DecimalLength(n / 10, k - 1);
    }
  }

  const LONGEST_DEFAULT := 17   // "Player " and ten digits

  lemma DefaultNameIsShort(id: nat)
    requires id < 0x1_0000_0000
    ensures |DefaultName(id)| <= LONGEST_DEFAULT
  {
    assert Tens(5) == 100000;
    assert Tens(10) == 10000000000;
    DecimalLength(id, 10);
  }

  /** A CS_LOGIN brings a name no longer than this. */
  predicate NamesShortly(job: Job, longest: nat) {
    job.Deliver? && job.packet.id == CS_LOGIN ==> |job.packet.body| <= longest
  }

  lemma EnterKeepsNames(l: L.Lobby, s: Sid, body: seq<byte>, longest: nat)
    requires Linked(l) && NamesWithin(l, longest) && s in l.players
    ensures NamesWithin(OnEnterRoom(l, s, body).lobby, longest)
  {
    if l.players[s].name != [] && |body| >= 4 {
      EnterRoomMoves(l, s, ReadI32(body, 0));
    }
  }

  lemma JoinKeepsNames(l: L.Lobby, s: Sid, body: seq<byte>, env: Env, longest: nat)
    requires Core(l) && PickOk(l, env) && NamesWithin(l, longest) && s in l.players && l.players[s].state == LoggedIn
    ensures var o := OnJoinRoom(l, s, body, env.pick); o.Done? ==> NamesWithin(o.lobby, longest)
  {
    if |body| == 4 && ReadI32(body, 0) >= 0 {
      AcquireKeeps(l, ReadI32(body, 0), env);
      var a := AcquireGameRoom(l, ReadI32(body, 0), env.pick);
      if a.Acquired? && !RoomAt(a.lobby, a.k).started && !RoomAt(a.lobby, a.k).IsFull() {
        SeatKeeps(a.lobby, s, a.k);
      }
    }
  }

  /** No name grows longer than those brought by CS_LOGIN, or than a default name. */
  lemma StepKeepsNames(l: L.Lobby, job: Job, env: Env, longest: nat)
    requires Core(l) && PickOk(l, env) && NamesWithin(l, longest) && CountersFit(l) && Step(l, job, env).Done?
    requires NamesShortly(job, longest) && LONGEST_DEFAULT <= longest
    ensures NamesWithin(Step(l, job, env).lobby, longest)
  {
    match job
    case Connect(s) =>
    case Disconnect(s) => if s in l.players { LeaveForm(l, s); }
    case Deliver(s, packet) =>
      if s in l.players {
        match GetHandler(l.players[s].state, packet.id)
        case NoHandler =>
        case Login =>
        case EnterRoomHandler => EnterKeepsNames(l, s, packet.body, longest);
        case ChatHandler =>
        case Hello => DefaultNameIsShort(l.players[s].id);
        case JoinRoom => JoinKeepsNames(l, s, packet.body, env, longest);
        case Ready =>
      }
  }

  /** A game room within its capacity: what is handed to SendPacket reads back as the room itself. */
  lemma GameRoomStateArrives(l: L.Lobby, k: int)
    requires Core(l) && NamesFit(l) && CountersFit(l) && k in l.rooms && l.rooms[k].IsGame() && WithinCapacity(l, k)
    ensures ReadRoomState(Wire(RoomState(View(l, k))).body) == ReadRoom(View(l, k))
  {
    var ms := l.rooms[k].members;
    assert forall i :: 0 <= i < |ms| ==> ms[i] in ms;
    GameRoomStateReadsBack(View(l, k));
  }

  // ---- what SendPacket lets through ---------------------------------------------------------------

  /** The bytes of a room state with these members: 7, and 7 and a name for each of them. */
  function StateSize(l: L.Lobby, ms: seq<Sid>): nat {
    if ms == [] then 7 else StateSize(l, ms[..|ms| - 1]) + 7 + |Get(l, ms[|ms| - 1]).name|
  }

  function EntriesOf(l: L.Lobby, ms: seq<Sid>): (es: seq<Entry>)
    ensures |es| == |ms|
  {
    seq(|ms|, i requires 0 <= i < |ms| => EntryOf(l, ms[i]))
  }

  lemma {:induction false} EntriesSnoc(es: seq<Entry>, e: Entry)
    ensures |EntriesBytes(es + [e])| == |EntriesBytes(es)| + |EntryBytes(e)|
  {
    if es == [] {
      assert es + [e] == [e];
      assert EntriesBytes([e]) == EntryBytes(e) + EntriesBytes([]);
    } else {
      EntriesSnoc(es[1..], e);
      assert (es + [e])[1..] == es[1..] + [e];
    }
  }

  lemma {:induction false} EntriesSize(l: L.Lobby, ms: seq<Sid>)
    ensures 7 + |EntriesBytes(EntriesOf(l, ms))| == StateSize(l, ms)
  {
    if ms != [] {
      var init := ms[..|ms| - 1];
      EntriesSize(l, init);
      EntriesSnoc(EntriesOf(l, init), EntryOf(l, ms[|ms| - 1]));
      assert EntriesOf(l, ms) == EntriesOf(l, init) + [EntryOf(l, ms[|ms| - 1])];
    }
  }

  lemma RoomStateSize(l: L.Lobby, k: int)
    ensures |RoomStateBody(View(l, k))| == StateSize(l, RoomAt(l, k).members)
  {
    EntriesSize(l, RoomAt(l, k).members);
    assert View(l, k).entries == EntriesOf(l, RoomAt(l, k).members);
  }

  /** A room state of less than 65536 bytes passes the check of SendPacket exactly when it is small enough. */
  lemma PostedIff(v: RoomView)
    requires |RoomStateBody(v)| < 65536
    ensures Wire(RoomState(v)).body == RoomStateBody(v)
    ensures Wire(RoomState(v)).Valid() <==> |RoomStateBody(v)| <= MAX_PACKET_SIZE - HEADER_SIZE
  {
    SizeCutOf(RoomStateBody(v));
  }

  lemma {:induction false} SameSize(l: L.Lobby, l1: L.Lobby, ms: seq<Sid>)
    requires forall m :: m in ms ==> |Get(l1, m).name| == |Get(l, m).name|
    ensures StateSize(l1, ms) == StateSize(l, ms)
  {
    if ms != [] {
      var init := ms[..|ms| - 1];
      assert forall m :: m in init ==> m in ms;
      SameSize(l, l1, init);
    }
  }

  lemma {:induction false} SizeAtMost(l: L.Lobby, ms: seq<Sid>, longest: nat)
    requires forall m :: m in ms ==> |Get(l, m).name| <= longest
    ensures StateSize(l, ms) <= 7 + |ms| * (7 + longest)
  {
    if ms != [] {
      var init := ms[..|ms| - 1];
      assert forall m :: m in init ==> m in ms;
      SizeAtMost(l, init, longest);
      assert |ms| * (7 + longest) == |init| * (7 + longest) + (7 + longest);
    }
  }

  /** With names this short a room state of two always fits a packet; one byte more and it need not. */
  const SHORT_NAME := 2035

  lemma ShortNamesFit(l: L.Lobby, k: int)
    requires Core(l) && NamesWithin(l, SHORT_NAME) && k in l.rooms && |l.rooms[k].members| <= GAME_ROOM_CAPACITY
    ensures StateSize(l, l.rooms[k].members) <= MAX_PACKET_SIZE - HEADER_SIZE
  {
    SizeAtMost(l, l.rooms[k].members, SHORT_NAME);
  }

  // ---- over runs ----------------------------------------------------------------------------------

  /** The job came in a packet of legal size, if it came in a packet. */
  predicate IsLegal(job: Job) {
    job.Deliver? ==> job.packet.Valid()
  }

  lemma AcquireCounts(l: L.Lobby, requested: int, pick: RoomPtr)
    ensures var a := AcquireGameRoom(l, requested, pick);
            a.Acquired? ==> a.lobby.nextPlayerId == l.nextPlayerId && a.lobby.nextMatchId == l.nextMatchId
  {
  }

  lemma EnterCounts(l: L.Lobby, s: Sid, body: seq<byte>)
    ensures var l1 := OnEnterRoom(l, s, body).lobby; l1.nextPlayerId == l.nextPlayerId && l1.nextMatchId == l.nextMatchId
  {
  }

  lemma JoinCounts(l: L.Lobby, s: Sid, body: seq<byte>, pick: RoomPtr)
    ensures var o := OnJoinRoom(l, s, body, pick);
            o.Done? ==> o.lobby.nextPlayerId == l.nextPlayerId && o.lobby.nextMatchId == l.nextMatchId
  {
    if |body| == 4 {
      AcquireCounts(l, ReadI32(body, 0), pick);
    }
  }

  lemma PacketCounts(l: L.Lobby, s: Sid, packet: Packet, env: Env)
    requires s in l.players && OnPacket(l, s, packet, env).Done?
    ensures var l1 := OnPacket(l, s, packet, env).lobby; l.nextPlayerId == l1.nextPlayerId && l.nextMatchId <= l1.nextMatchId
  {
    match GetHandler(l.players[s].state, packet.id)
    case NoHandler =>
    case Login =>
    case EnterRoomHandler => EnterCounts(l, s, packet.body);
    case ChatHandler =>
    case Hello =>
    case JoinRoom => JoinCounts(l, s, packet.body, env.pick);
    case Ready =>
  }

  lemma LeaveCounts(l: L.Lobby, s: Sid)
    ensures var l1 := LeaveCurrent(l, s); l1.nextPlayerId == l.nextPlayerId && l1.nextMatchId == l.nextMatchId
  {
  }

  lemma StepCounts(l: L.Lobby, job: Job, env: Env)
    requires Step(l, job, env).Done?
    ensures var l1 := Step(l, job, env).lobby; l.nextPlayerId <= l1.nextPlayerId && l.nextMatchId <= l1.nextMatchId
  {
    match job
    case Connect(_) =>
    case Disconnect(s) => LeaveCounts(l, s);
    case Deliver(s, packet) =>
      if s in l.players {
        PacketCounts(l, s, packet, env);
      }
  }

  /** At the end of every run no name is longer than those brought by CS_LOGIN, or than a default name. */
  lemma {:induction false} RunKeepsNames(jobs: seq<Job>, envs: seq<Env>, longest: nat)
    requires |jobs| == |envs| && PicksOk(jobs, envs) && LONGEST_DEFAULT <= longest
    requires forall i :: 0 <= i < |jobs| ==> NamesShortly(jobs[i], longest)
    requires After(jobs, envs).Running? && CountersFit(After(jobs, envs).lobby)
    ensures NamesWithin(After(jobs, envs).lobby, longest)
  {
    if jobs != [] {
      var n := |jobs| - 1;
      var l := After(jobs[..n], envs[..n]).lobby;
      ThroughoutPrefix(jobs, envs, (l: L.Lobby, job: Job, env: Env) => PickOk(l, env));
      StepCounts(l, jobs[n], envs[n]);
      RunKeepsNames(jobs[..n], envs[..n], longest);
      RunKeepsInv(jobs[..n], envs[..n]);
      StepKeepsNames(l, jobs[n], envs[n], longest);
    }
  }

  /** Packets of legal size bring names that fit in a packet. */
  lemma LegalNamesFit(job: Job)
    requires IsLegal(job)
    ensures NamesShortly(job, MAX_PACKET_SIZE - HEADER_SIZE)
  {
  }

  function EntryIds(v: RoomView): (ids: seq<nat>)
    ensures |ids| == |v.entries|
  {
    seq(|v.entries|, i requires 0 <= i < |v.entries| => v.entries[i].id)
  }

  /** A start on the wire: its match id and the map, and a spawn on an open tile for each of these players, in order. */
  ghost predicate StartsFor(body: seq<byte>, matchId: nat, ids: seq<nat>) {
    var r := ReadGameStart(body);
    && r.ReadStart? && r.matchId == matchId && r.tiles == Tiles() && |r.spawns| == |ids|
    && (forall j :: 0 <= j < |ids| ==>
          && r.spawns[j].id == ids[j]
          && var tx, ty := r.spawns[j].x / TILE_UNIT, r.spawns[j].y / TILE_UNIT;
          && 0 <= tx < MAP_WIDTH && 0 <= ty < MAP_HEIGHT && !IsWallTile(tx, ty)
          && r.spawns[j].x == TileCenter(tx) && r.spawns[j].y == TileCenter(ty))
  }

  lemma WireOfStart(matchId: nat, ids: seq<nat>)
    requires |ids| <= 2
    ensures Wire(GameStart(matchId, ids)) == Packet(SC_GAME_START, GameStartBody(matchId, ids))
    ensures Wire(GameStart(matchId, ids)).Valid()
  {
    var b := GameStartBody(matchId, ids);
    assert |b| == 12 + TILES + 12 * |ids|;
    assert b[..|b|] == b;
  }

  lemma SpawnIsOpen(ids: seq<nat>, j: nat)
    requires j < |ids|
    ensures var s := Spawns(ids)[j];
            var tx, ty := s.x / TILE_UNIT, s.y / TILE_UNIT;
            && s.id == ids[j] && 0 <= tx < MAP_WIDTH && 0 <= ty < MAP_HEIGHT && !IsWallTile(tx, ty)
            && s.x == TileCenter(tx) && s.y == TileCenter(ty)
  {
    SpawnsAreOpen(ids, j);
    var s := Spawns(ids)[j];
    TileIndex(s.x / TILE_UNIT, s.y / TILE_UNIT);
  }

  lemma StartReadsBack(matchId: nat, ids: seq<nat>)
    requires matchId < 0x1_0000_0000 && |ids| <= 2
    requires forall i :: 0 <= i < |ids| ==> ids[i] < 0x1_0000_0000
    ensures StartsFor(Wire(GameStart(matchId, ids)).body, matchId, ids)
  {
    WireOfStart(matchId, ids);
    ReadGameStartOfBody(matchId, ids);
    forall j | 0 <= j < |ids|
      ensures var s := Spawns(ids)[j];
              var tx, ty := s.x / TILE_UNIT, s.y / TILE_UNIT;
              && s.id == ids[j] && 0 <= tx < MAP_WIDTH && 0 <= ty < MAP_HEIGHT && !IsWallTile(tx, ty)
              && s.x == TileCenter(tx) && s.y == TileCenter(ty)
    {
      SpawnIsOpen(ids, j);
    }
  }

  lemma IdsAreDistinct(l: L.Lobby, ms: seq<Sid>)
    requires Ids(l) && NoDup(ms) && forall m :: m in ms ==> m in l.players
    ensures forall i, j :: 0 <= i < j < |ms| ==> IdsOf(l, ms)[i] != IdsOf(l, ms)[j]
  {
    assert forall i :: 0 <= i < |ms| ==> ms[i] in ms;
  }

  /** Two messages to everyone, one after the other: each member's second comes right after its first. */
  lemma TwoRounds(ms: seq<Sid>, first: Msg, second: Msg, fx: seq<Effect>, i: nat)
    requires NoDup(ms) && i < |ms| && |fx| == 2 * |ms|
    requires fx[..|ms|] == SendAll(ms, first) && fx[|ms|..] == SendAll(ms, second)
    ensures fx[i] == Send(ms[i], first) && fx[|ms| + i] == Send(ms[i], second)
    ensures forall j :: i < j < |ms| + i ==> fx[j].to != ms[i]
  {
    var n := |ms|;
    assert forall j :: 0 <= j < n ==> fx[j] == fx[..n][j] && fx[n + j] == fx[n..][j];
    forall j | i < j < n + i
      ensures fx[j].to != ms[i]
    {
      if j >= n {
        assert fx[j] == fx[n + (j - n)];
      }
    }
  }

  /** The i-th member is told this room state and then, with nothing for it in between, a start that names
      exactly the players of that room state, once each and in its order. */
  ghost predicate ShownThenStarted(ms: seq<Sid>, fx: seq<Effect>, i: nat, v: RoomView, matchId: nat) {
    && i < |ms| && |fx| == 2 * |ms| && |v.entries| == |ms|
    && fx[i] == Send(ms[i], RoomState(v)) && fx[|ms| + i] == Send(ms[i], GameStart(matchId, EntryIds(v)))
    && (forall j :: i < j < |ms| + i ==> fx[j].to != ms[i])
    && (forall a, b :: 0 <= a < b < |ms| ==> EntryIds(v)[a] != EntryIds(v)[b])
  }

  /** What each member of a match is told when it starts. */
  lemma ToldAtTheStart(l: L.Lobby, job: Job, env: Env, k: int, i: nat)
    requires Inv(l) && PickOk(l, env) && Step(l, job, env).Done?
    requires !IsStarted(l, k) && IsStarted(Step(l, job, env).lobby, k) && i < |RoomAt(l, k).members|
    ensures var o := Step(l, job, env);
            ShownThenStarted(RoomAt(l, k).members, o.effects, i, View(o.lobby, k), l.nextMatchId)
  {
    StartsOnlyWhenDue(l, job, env, k);
    MembersAfterStart(l, job, env, k);
    var o := Step(l, job, env);
    var ms := RoomAt(l, k).members;
    TwoRounds(ms, RoomState(View(o.lobby, k)), GameStart(l.nextMatchId, IdsOf(l, ms)), o.effects, i);
    IdsAreDistinct(l, ms);
  }

  /** The start fits a packet and says so; the room state told before it fits a packet, and then reads back as
      the room, exactly when its members' names are short enough. */
  lemma StartIsPosted(l: L.Lobby, job: Job, env: Env, k: int)
    requires Inv(l) && CountersFit(l) && NamesFit(l) && PickOk(l, env) && Step(l, job, env).Done?
    requires !IsStarted(l, k) && IsStarted(Step(l, job, env).lobby, k)
    ensures var v := View(Step(l, job, env).lobby, k);
            var start := Wire(GameStart(l.nextMatchId, EntryIds(v)));
            && start.Valid() && StartsFor(start.body, l.nextMatchId, EntryIds(v))
            && (Wire(RoomState(v)).Valid() <==> StateSize(l, RoomAt(l, k).members) <= MAX_PACKET_SIZE - HEADER_SIZE)
            && ReadRoomState(Wire(RoomState(v)).body) == ReadRoom(v)
  {
    var ms := RoomAt(l, k).members;
    StartsOnlyWhenDue(l, job, env, k);
    MembersAfterStart(l, job, env, k);
    IdsAreLive(l, ms);
    WireOfStart(l.nextMatchId, IdsOf(l, ms));
    StartReadsBack(l.nextMatchId, IdsOf(l, ms));
    RoomAtTheStart(l, job, env, k);
  }

  /** Each member of a match is told the room state and then the start. The start is always posted; the room
      state is posted exactly when the two names leave it small enough, and then the start names exactly the
      players the member was shown. */
  lemma MatchStartsAsShown(l: L.Lobby, job: Job, env: Env, k: int, i: nat)
    requires Inv(l) && CountersFit(l) && NamesFit(l) && PickOk(l, env) && Step(l, job, env).Done?
    requires !IsStarted(l, k) && IsStarted(Step(l, job, env).lobby, k) && i < |RoomAt(l, k).members|
    ensures var o := Step(l, job, env);
            var v := View(o.lobby, k);
            var start := Wire(GameStart(l.nextMatchId, EntryIds(v)));
            && Depicts(o.lobby, k, v) && ShownThenStarted(RoomAt(l, k).members, o.effects, i, v, l.nextMatchId)
            && start.Valid() && StartsFor(start.body, l.nextMatchId, EntryIds(v))
            && (Wire(RoomState(v)).Valid() <==> StateSize(l, RoomAt(l, k).members) <= MAX_PACKET_SIZE - HEADER_SIZE)
            && ReadRoomState(Wire(RoomState(v)).body) == ReadRoom(v)
  {
    ToldAtTheStart(l, job, env, k, i);
    StartIsPosted(l, job, env, k);
    StepKeepsInv(l, job, env);
    ViewDepicts(Step(l, job, env).lobby, k);
  }

  lemma IdsAreLive(l: L.Lobby, ms: seq<Sid>)
    requires Ids(l) && forall m :: m in ms ==> m in l.players
    ensures forall j :: 0 <= j < |ms| ==> IdsOf(l, ms)[j] < l.nextPlayerId
  {
    assert forall j :: 0 <= j < |ms| ==> ms[j] in ms;
  }

  /** The room that starts keeps its members, and they keep their ids. */
  lemma MembersAfterStart(l: L.Lobby, job: Job, env: Env, k: int)
    requires Inv(l) && PickOk(l, env) && Step(l, job, env).Done?
    requires !IsStarted(l, k) && IsStarted(Step(l, job, env).lobby, k)
    ensures var l1 := Step(l, job, env).lobby; EntryIds(View(l1, k)) == IdsOf(l, RoomAt(l, k).members)
  {
    StartsOnlyWhenDue(l, job, env, k);
    ReadyKeepsMembers(l, job.s, job.packet.body);
    ReadyIsOnReady(l, job, env);
    var ms := RoomAt(l, k).members;
    var l1 := OnReady(l, job.s, job.packet.body).lobby;
    assert forall j :: 0 <= j < |ms| ==> Get(l1, ms[j]).id == Get(l, ms[j]).id;
    assert RoomAt(l1, k).members == ms;
  }

  lemma ReadyIsOnReady(l: L.Lobby, job: Job, env: Env)
    requires IsReady(l, job)
    ensures Step(l, job, env) == OnReady(l, job.s, job.packet.body)
  {
  }

  lemma ReadyKeepsMembers(l: L.Lobby, s: Sid, body: seq<byte>)
    requires s in l.players
    ensures var l1 := OnReady(l, s, body).lobby;
            && (forall m :: Get(l1, m).id == Get(l, m).id && Get(l1, m).name == Get(l, m).name)
            && (forall k :: RoomAt(l1, k).members == RoomAt(l, k).members)
            && l1.nextPlayerId == l.nextPlayerId
  {
  }

  /** The room state told at the start: its size is that of the members' names before the job. */
  lemma RoomAtTheStart(l: L.Lobby, job: Job, env: Env, k: int)
    requires Inv(l) && CountersFit(l) && NamesFit(l) && PickOk(l, env) && Step(l, job, env).Done?
    requires !IsStarted(l, k) && IsStarted(Step(l, job, env).lobby, k)
    ensures var v := View(Step(l, job, env).lobby, k);
            && (Wire(RoomState(v)).Valid() <==> StateSize(l, RoomAt(l, k).members) <= MAX_PACKET_SIZE - HEADER_SIZE)
            && ReadRoomState(Wire(RoomState(v)).body) == ReadRoom(v)
  {
    StartsOnlyWhenDue(l, job, env, k);
    ReadyIsOnReady(l, job, env);
    ReadyKeepsMembers(l, job.s, job.packet.body);
    StepKeepsInv(l, job, env);
    var l1 := OnReady(l, job.s, job.packet.body).lobby;
    var ms := RoomAt(l, k).members;
    assert forall m :: m in ms ==> |Get(l, m).name| <= MAX_PACKET_SIZE - HEADER_SIZE;
    PostedWhenSmall(l, l1, k);
  }

  lemma PostedWhenSmall(l: L.Lobby, l1: L.Lobby, k: int)
    requires Core(l1) && l1.nextPlayerId <= 0x1_0000_0000 && k in l1.rooms && l1.rooms[k].IsGame() && |l1.rooms[k].members| <= 2
    requires forall m :: m in l1.rooms[k].members ==> Get(l1, m).name == Get(l, m).name && |Get(l, m).name| <= MAX_PACKET_SIZE - HEADER_SIZE
    ensures var v := View(l1, k);
            && (Wire(RoomState(v)).Valid() <==> StateSize(l, l1.rooms[k].members) <= MAX_PACKET_SIZE - HEADER_SIZE)
            && ReadRoomState(Wire(RoomState(v)).body) == ReadRoom(v)
  {
    var ms := l1.rooms[k].members;
    RoomStateSize(l1, k);
    SameSize(l, l1, ms);
    SizeAtMost(l, ms, MAX_PACKET_SIZE - HEADER_SIZE);
    PostedIff(View(l1, k));
    GameRoomReadsBack(l1, k);
  }

  /** A game room whose state takes less than 65536 bytes reads back off the wire. */
  lemma GameRoomReadsBack(l: L.Lobby, k: int)
    requires Core(l) && l.nextPlayerId <= 0x1_0000_0000 && k in l.rooms && l.rooms[k].IsGame()
    requires |l.rooms[k].members| <= 2 && StateSize(l, l.rooms[k].members) < 65536
    ensures ReadRoomState(Wire(RoomState(View(l, k))).body) == ReadRoom(View(l, k))
  {
    var ms := l.rooms[k].members;
    assert forall i :: 0 <= i < |ms| ==> ms[i] in ms;
    RoomStateSize(l, k);
    NamesOf(l, ms);
    RoomStateHanded(View(l, k));
  }

  lemma {:induction false} NamesOf(l: L.Lobby, ms: seq<Sid>)
    ensures forall i :: 0 <= i < |ms| ==> |Get(l, ms[i]).name| < StateSize(l, ms)
  {
    if ms != [] {
      NamesOf(l, ms[..|ms| - 1]);
    }
  }
}
