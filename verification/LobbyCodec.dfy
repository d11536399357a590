/** The waiting-room packets on the wire: the server's Writer, and a reader that follows protocol v1. */
module LobbyCodec {
  import opened Bytes
  import opened Framing
  import opened Protocol
  import opened Lobby
  import opened ChatCodec

  const TICK_RATE := 20
  const TILE_UNIT := 1000
  const MAP_WIDTH := 15
  const MAP_HEIGHT := 13

  /** A rim of walls, and inside it a wall wherever both coordinates are even. */
  predicate IsWallTile(x: int, y: int) {
    x == 0 || y == 0 || x == MAP_WIDTH - 1 || y == MAP_HEIGHT - 1 || (x % 2 == 0 && y % 2 == 0)
  }

  function TileCenter(t: int): int {
    t * TILE_UNIT + TILE_UNIT / 2
  }

  function SpawnTile(slot: nat): (int, int) {
    if slot % 2 == 0 then (1, 1) else (13, 11)
  }

  // ---- SC_ROOM_STATE ------------------------------------------------------------------------------

  function Flag(b: bool): byte {
    if b then 1 else 0
  }

  function EntryBytes(e: Entry): (b: seq<byte>)
    ensures |b| == 7 + |e.name|
  {
    U32(e.id) + [Flag(e.ready)] + U16(|e.name|) + e.name
  }

  function EntriesBytes(es: seq<Entry>): seq<byte> {
    if es == [] then [] else EntryBytes(es[0]) + EntriesBytes(es[1..])
  }

  function RoomStateBody(v: RoomView): seq<byte> {
    U32(v.roomId) + [v.capacity % 256] + U16(|v.entries|) + EntriesBytes(v.entries)
  }

  predicate EntryFits(e: Entry) {
    e.id < 0x1_0000_0000 && |e.name| < 65536
  }

  /** Every field within the width it is written in. */
  predicate ViewFits(v: RoomView) {
    && v.roomId < 65536 && v.capacity < 256 && |v.entries| < 65536
    && (forall i :: 0 <= i < |v.entries| ==> EntryFits(v.entries[i]))
  }

  datatype Taken<T> = Short | Taken(value: T, rest: seq<byte>)

  function ReadEntry(b: seq<byte>): Taken<Entry> {
    if |b| < 7 || |b| < 7 + ReadU16(b, 5) then Short
    else Taken(Entry(ReadU32(b, 0), b[4] != 0, b[7..7 + ReadU16(b, 5)]), b[7 + ReadU16(b, 5)..])
  }

  function ReadEntries(b: seq<byte>, count: nat): Taken<seq<Entry>> {
    if count == 0 then Taken([], b)
    else
      match ReadEntry(b)
      case Short => Short
      case Taken(e, rest) =>
        match ReadEntries(rest, count - 1)
        case Short => Short
        case Taken(es, end) => Taken([e] + es, end)
  }

  datatype ReadRoom = NotARoom | ReadRoom(view: RoomView)

  /** The whole body, no byte left over. */
  function ReadRoomState(b: seq<byte>): ReadRoom {
    if |b| < 7 then NotARoom
    else
      match ReadEntries(b[7..], ReadU16(b, 5))
      case Short => NotARoom
      case Taken(es, rest) => if rest == [] then ReadRoom(RoomView(ReadU32(b, 0), b[4], es)) else NotARoom
  }

  lemma ReadEntryLayout(id: seq<byte>, flag: byte, len: seq<byte>, name: seq<byte>, more: seq<byte>)
    requires |id| == 4 && |len| == 2 && ReadU16(len, 0) == |name|
    ensures ReadEntry(id + [flag] + len + name + more) == Taken(Entry(ReadU32(id, 0), flag != 0, name), more)
  {
    var b := id + [flag] + len + name + more;
    assert b[0..4] == id && b[4] == flag && b[5..7] == len && b[7..7 + |name|] == name && b[7 + |name|..] == more;
    ReadInSlice(b, 0, 4, 0);
    ReadInSlice(b, 5, 7, 0);
  }

  lemma ReadEntryOfBytes(e: Entry, more: seq<byte>)
    requires EntryFits(e)
    ensures ReadEntry(EntryBytes(e) + more) == Taken(e, more)
  {
    assert U32(e.id)[0..4] == U32(e.id);
    ReadU32OfU32(e.id, U32(e.id), 0);
    ReadBackU16(|e.name|);
    ReadEntryLayout(U32(e.id), Flag(e.ready), U16(|e.name|), e.name, more);
  }

  lemma {:induction false} ReadEntriesOfBytes(es: seq<Entry>, more: seq<byte>)
    requires forall i :: 0 <= i < |es| ==> EntryFits(es[i])
    ensures ReadEntries(EntriesBytes(es) + more, |es|) == Taken(es, more)
  {
    if es == [] {
      assert EntriesBytes(es) + more == more;
    } else {
      ReadEntryOfBytes(es[0], EntriesBytes(es[1..]) + more);
      ReadEntriesOfBytes(es[1..], more);
      PlusAssociates(EntryBytes(es[0]), EntriesBytes(es[1..]), more);
      assert [es[0]] + es[1..] == es;
    }
  }

  lemma U32ReadsBack(v: nat)
    requires v < 0x1_0000_0000
    ensures ReadU32(U32(v), 0) == v
  {
    assert U32(v)[0..4] == U32(v);
    ReadU32OfU32(v, U32(v), 0);
  }

  lemma RoomLayout(id: seq<byte>, capacity: byte, len: seq<byte>, bytes: seq<byte>, es: seq<Entry>)
    requires |id| == 4 && |len| == 2 && ReadU16(len, 0) == |es| && ReadEntries(bytes, |es|) == Taken(es, [])
    ensures ReadRoomState(id + [capacity] + len + bytes) == ReadRoom(RoomView(ReadU32(id, 0), capacity, es))
  {
    var b := id + [capacity] + len + bytes;
    assert b[0..4] == id && b[4] == capacity && b[5..7] == len && b[7..] == bytes;
    ReadInSlice(b, 0, 4, 0);
    ReadInSlice(b, 5, 7, 0);
  }

  lemma RoomReadsBack(v: RoomView, id: seq<byte>, capacity: byte, len: seq<byte>, bytes: seq<byte>)
    requires |id| == 4 && ReadU32(id, 0) == v.roomId && capacity == v.capacity
    requires |len| == 2 && ReadU16(len, 0) == |v.entries| && ReadEntries(bytes, |v.entries|) == Taken(v.entries, [])
    ensures ReadRoomState(id + [capacity] + len + bytes) == ReadRoom(v)
  {
    RoomLayout(id, capacity, len, bytes, v.entries);
  }

  lemma EntriesReadBack(es: seq<Entry>)
    requires forall i :: 0 <= i < |es| ==> EntryFits(es[i])
    ensures ReadEntries(EntriesBytes(es), |es|) == Taken(es, [])
  {
    ReadEntriesOfBytes(es, []);
    assert EntriesBytes(es) + [] == EntriesBytes(es);
  }

  /** A room state reads back as the room that was written: number, capacity, and every member in order. */
  lemma ReadRoomStateOfBody(v: RoomView)
    requires ViewFits(v)
    ensures ReadRoomState(RoomStateBody(v)) == ReadRoom(v)
  {
    U32ReadsBack(v.roomId);
    ReadBackU16(|v.entries|);
    EntriesReadBack(v.entries);
    RoomReadsBack(v, U32(v.roomId), v.capacity % 256, U16(|v.entries|), EntriesBytes(v.entries));
  }

  lemma {:induction false} ReadEntriesLength(b: seq<byte>, count: nat)
    ensures var r := ReadEntries(b, count);
            r.Taken? ==> |r.value| == count && |b| == |EntriesBytes(r.value)| + |r.rest|
  {
    if count == 0 {
    } else {
      var r := ReadEntry(b);
      if r.Taken? {
        ReadEntriesLength(r.rest, count - 1);
      }
    }
  }

  /** Nothing shorter or longer than the body of a room state reads as that room. */
  lemma ReadRoomStateLength(b: seq<byte>)
    requires ReadRoomState(b).ReadRoom?
    ensures |b| == |RoomStateBody(ReadRoomState(b).view)|
  {
    ReadEntriesLength(b[7..], ReadU16(b, 5));
  }

  // ---- what SendPacket makes of a Writer ----------------------------------------------------------

  /** Writer::Size is the length cut to 16 bits, and only that many bytes are handed on. */
  function SizeCut(buf: seq<byte>): (b: seq<byte>)
    ensures |b| == |buf| % 65536
  {
    buf[..|buf| % 65536]
  }

  predicate FitsAPacket(body: seq<byte>) {
    HEADER_SIZE + |body| <= MAX_PACKET_SIZE
  }

  lemma SizeCutOf(buf: seq<byte>)
    ensures |buf| < 65536 ==> SizeCut(buf) == buf
    ensures |buf| >= 65536 ==> |SizeCut(buf)| < |buf|
  {
    if |buf| < 65536 {
      assert buf[..|buf|] == buf;
    }
  }

  /** What is handed on for a room state reads back as that room exactly when its encoding is shorter
      than 65536 bytes; it is then posted exactly when it fits a packet. */
  lemma RoomStateHanded(v: RoomView)
    requires ViewFits(v)
    ensures ReadRoomState(SizeCut(RoomStateBody(v))) == ReadRoom(v) <==> |RoomStateBody(v)| < 65536
    ensures |RoomStateBody(v)| < 65536 ==> (FitsAPacket(SizeCut(RoomStateBody(v))) <==> |RoomStateBody(v)| <= MAX_PACKET_SIZE - HEADER_SIZE)
  {
    var body := RoomStateBody(v);
    SizeCutOf(body);
    if |body| < 65536 {
      ReadRoomStateOfBody(v);
    } else if ReadRoomState(SizeCut(body)) == ReadRoom(v) {
      ReadRoomStateLength(SizeCut(body));
      assert false;
    }
  }

  lemma {:induction false} EntriesLength(es: seq<Entry>, longest: nat)
    requires forall i :: 0 <= i < |es| ==> |es[i].name| <= longest
    ensures |EntriesBytes(es)| <= |es| * (7 + longest)
  {
    if es == [] {
    } else {
      EntriesLength(es[1..], longest);
    }
  }

  /** A room for two whose names came in packets never overflows the 16-bit size. */
  lemma GameRoomStateReadsBack(v: RoomView)
    requires ViewFits(v) && |v.entries| <= 2
    requires forall i :: 0 <= i < |v.entries| ==> |v.entries[i].name| <= MAX_PACKET_SIZE - HEADER_SIZE
    ensures ReadRoomState(SizeCut(RoomStateBody(v))) == ReadRoom(v)
  {
    EntriesLength(v.entries, MAX_PACKET_SIZE - HEADER_SIZE);
    RoomStateHanded(v);
  }

  // ---- SC_GAME_START ------------------------------------------------------------------------------

  const TILES := MAP_WIDTH * MAP_HEIGHT

  /** Row by row: index y * MAP_WIDTH + x. */
  function Tiles(): (t: seq<byte>)
    ensures |t| == TILES
  {
    seq(TILES, i requires 0 <= i < TILES => Flag(IsWallTile(i % MAP_WIDTH, i / MAP_WIDTH)))
  }

  datatype Spawn = Spawn(id: nat, x: int, y: int)

  function SpawnOf(id: nat, i: nat): Spawn {
    Spawn(id, TileCenter(SpawnTile(i).0), TileCenter(SpawnTile(i).1))
  }

  function Spawns(ids: seq<nat>): (s: seq<Spawn>)
    ensures |s| == |ids|
  {
    seq(|ids|, i requires 0 <= i < |ids| => SpawnOf(ids[i], i))
  }

  function SpawnBytes(s: Spawn): (b: seq<byte>)
    ensures |b| == 12
  {
    U32(s.id) + U32(s.x) + U32(s.y)
  }

  function SpawnsBytes(ss: seq<Spawn>): (b: seq<byte>)
    ensures |b| == 12 * |ss|
  {
    if ss == [] then [] else SpawnsBytes(ss[..|ss| - 1]) + SpawnBytes(ss[|ss| - 1])
  }

  function GameStartHead(matchId: nat): (b: seq<byte>)
    ensures |b| == 10
  {
    U32(matchId) + U16(TICK_RATE) + U16(TILE_UNIT) + [MAP_WIDTH as byte] + [MAP_HEIGHT as byte]
  }

  function GameStartBody(matchId: nat, ids: seq<nat>): seq<byte> {
    GameStartHead(matchId) + Tiles() + U16(|ids|) + SpawnsBytes(Spawns(ids))
  }

  datatype ReadStart = NotAStart |
    ReadStart(matchId: nat, tickRate: nat, tileUnit: nat, width: nat, height: nat, tiles: seq<byte>, spawns: seq<Spawn>)

  function ReadSpawnsFrom(b: seq<byte>, offset: nat, count: nat): (s: seq<Spawn>)
    requires offset + 12 * count <= |b|
    ensures |s| == count
  {
    seq(count, i requires 0 <= i < count =>
      Spawn(ReadU32(b, offset + 12 * i), ReadI32(b, offset + 12 * i + 4), ReadI32(b, offset + 12 * i + 8)))
  }

  function Area(w: byte, h: byte): nat {
    w * h
  }

  function ReadGameStart(b: seq<byte>): ReadStart {
    if |b| < 10 then NotAStart
    else
      var w, h := b[8], b[9];
      var tiles := Area(w, h);
      if |b| < 12 + tiles then NotAStart
      else
        var count := ReadU16(b, 10 + tiles);
        if |b| != 12 + tiles + 12 * count then NotAStart
        else ReadStart(ReadU32(b, 0), ReadU16(b, 4), ReadU16(b, 6), w, h, b[10..10 + tiles], ReadSpawnsFrom(b, 12 + tiles, count))
  }

  lemma {:induction false} SpawnAt(ss: seq<Spawn>, i: nat)
    requires i < |ss|
    ensures SpawnsBytes(ss)[12 * i..12 * i + 12] == SpawnBytes(ss[i])
  {
    var init := ss[..|ss| - 1];
    var b := SpawnsBytes(ss);
    assert b[..12 * |init|] == SpawnsBytes(init) && b[12 * |init|..] == SpawnBytes(ss[|ss| - 1]);
    if i < |init| {
      SpawnAt(init, i);
      assert b[12 * i..12 * i + 12] == b[..12 * |init|][12 * i..12 * i + 12];
    } else {
      assert b[12 * i..12 * i + 12] == b[12 * |init|..];
    }
  }

  /** Three fields of four bytes, found again in the buffer. */
  lemma ThreeFields(b: seq<byte>, offset: nat, x: seq<byte>, y: seq<byte>, z: seq<byte>)
    requires offset + 12 <= |b| && |x| == 4 && |y| == 4 && |z| == 4 && b[offset..offset + 12] == x + y + z
    ensures b[offset..offset + 4] == x && b[offset + 4..offset + 8] == y && b[offset + 8..offset + 12] == z
  {
    SliceOfSlice(b, offset, offset + 12, 0, 4);
    SliceOfSlice(b, offset, offset + 12, 4, 8);
    SliceOfSlice(b, offset, offset + 12, 8, 12);
    assert (x + y + z)[0..4] == x && (x + y + z)[4..8] == y && (x + y + z)[8..12] == z;
  }

  lemma ReadSpawn(b: seq<byte>, offset: nat, s: Spawn)
    requires offset + 12 <= |b| && b[offset..offset + 12] == SpawnBytes(s)
    requires s.id < 0x1_0000_0000 && -0x8000_0000 <= s.x < 0x8000_0000 && -0x8000_0000 <= s.y < 0x8000_0000
    ensures Spawn(ReadU32(b, offset), ReadI32(b, offset + 4), ReadI32(b, offset + 8)) == s
  {
    ThreeFields(b, offset, U32(s.id), U32(s.x), U32(s.y));
    ReadU32OfU32(s.id, b, offset);
    ReadI32OfU32(s.x, b, offset + 4);
    ReadI32OfU32(s.y, b, offset + 8);
  }

  lemma GameStartLayout(head: seq<byte>, tiles: seq<byte>, len: seq<byte>, spawns: seq<byte>)
    requires |head| == 10 && |len| == 2
    ensures var b := head + tiles + len + spawns;
            var n := |tiles|;
            && b[..10] == head && b[10..10 + n] == tiles && b[10 + n..12 + n] == len
            && forall i, j :: 0 <= i <= j <= |spawns| ==> b[12 + n + i..12 + n + j] == spawns[i..j]
  {
    var b := head + tiles + len + spawns;
    var n := |tiles|;
    assert b[12 + n..] == spawns;
    forall i, j | 0 <= i <= j <= |spawns|
      ensures b[12 + n + i..12 + n + j] == spawns[i..j]
    {
      SliceOfSlice(b, 12 + n, |b|, i, j);
    }
  }

  lemma HeadFields(matchId: nat)
    requires matchId < 0x1_0000_0000
    ensures var h := GameStartHead(matchId);
            ReadU32(h, 0) == matchId && ReadU16(h, 4) == TICK_RATE && ReadU16(h, 6) == TILE_UNIT
            && h[8] as int == MAP_WIDTH && h[9] as int == MAP_HEIGHT
  {
    var h := GameStartHead(matchId);
    assert h[0..4] == U32(matchId) && h[4..6] == U16(TICK_RATE) && h[6..8] == U16(TILE_UNIT);
    ReadU32OfU32(matchId, h, 0);
    ReadU16OfU16(TICK_RATE, h, 4);
    ReadU16OfU16(TILE_UNIT, h, 6);
  }

  /** A game start reads back with its match id, the constants, the map row by row, and every player
      named in order at its spawn. */
  lemma ReadGameStartOfBody(matchId: nat, ids: seq<nat>)
    requires matchId < 0x1_0000_0000 && |ids| < 65536
    requires forall i :: 0 <= i < |ids| ==> ids[i] < 0x1_0000_0000
    ensures ReadGameStart(GameStartBody(matchId, ids)) ==
            ReadStart(matchId, TICK_RATE, TILE_UNIT, MAP_WIDTH, MAP_HEIGHT, Tiles(), Spawns(ids))
  {
    var head, len, sb := GameStartHead(matchId), U16(|ids|), SpawnsBytes(Spawns(ids));
    var b := GameStartBody(matchId, ids);
    GameStartLayout(head, Tiles(), len, sb);
    HeadFields(matchId);
    ReadInSlice(b, 0, 10, 0);
    ReadInSlice(b, 0, 10, 4);
    ReadInSlice(b, 0, 10, 6);
    assert b[8] == b[..10][8] && b[9] == b[..10][9];
    ReadBackU16(|ids|);
    ReadInSlice(b, 10 + TILES, 12 + TILES, 0);
    assert ReadU16(b, 10 + TILES) == |ids|;
    ReadSpawnsBack(b, ids);
  }

  lemma ReadSpawnsBack(b: seq<byte>, ids: seq<nat>)
    requires |b| == 12 + TILES + 12 * |ids|
    requires forall i :: 0 <= i < |ids| ==> ids[i] < 0x1_0000_0000
    requires forall i, j :: 0 <= i <= j <= 12 * |ids| ==> b[12 + TILES + i..12 + TILES + j] == SpawnsBytes(Spawns(ids))[i..j]
    ensures ReadSpawnsFrom(b, 12 + TILES, |ids|) == Spawns(ids)
  {
    forall i | 0 <= i < |ids|
      ensures ReadSpawnsFrom(b, 12 + TILES, |ids|)[i] == Spawns(ids)[i]
    {
      SpawnAt(Spawns(ids), i);
      ReadSpawn(b, 12 + TILES + 12 * i, Spawns(ids)[i]);
    }
  }

  /** Every spawn lies in the middle of an open tile of the map that was sent. */
  lemma SpawnsAreOpen(ids: seq<nat>, i: nat)
    requires i < |ids|
    ensures var s := Spawns(ids)[i];
            var tx, ty := s.x / TILE_UNIT, s.y / TILE_UNIT;
            && 0 <= tx < MAP_WIDTH && 0 <= ty < MAP_HEIGHT
            && Tiles()[ty * MAP_WIDTH + tx] == 0
            && s.id == ids[i] && s.x == TileCenter(tx) && s.y == TileCenter(ty)
  {
  }

  lemma TileIndex(x: nat, y: nat)
    requires x < MAP_WIDTH && y < MAP_HEIGHT
    ensures y * MAP_WIDTH + x < TILES
    ensures Tiles()[y * MAP_WIDTH + x] == 1 <==> IsWallTile(x, y)
  {
  }

  // ---- every message of the game thread -----------------------------------------------------------

  function Body(msg: Msg): seq<byte> {
    match msg
    case Chat(id, name, text) => ChatBody(id, name, text)
    case Welcome(id, tick) => [0] + U32(id) + U32(tick)
    case RoomState(view) => RoomStateBody(view)
    case GameStart(matchId, ids) => GameStartBody(matchId, ids)
    case Error(rejected, code) => U16(rejected) + U16(code)
  }

  function PacketId(msg: Msg): nat {
    match msg
    case Chat(_, _, _) => SC_CHAT
    case Welcome(_, _) => SC_WELCOME
    case RoomState(_) => SC_ROOM_STATE
    case GameStart(_, _) => SC_GAME_START
    case Error(_, _) => SC_ERROR
  }

  /** The packet SendPacket is asked for. A chat is measured before it is cut, the rest are Writers. */
  function Wire(msg: Msg): Packet {
    Packet(PacketId(msg), if msg.Chat? then Body(msg) else SizeCut(Body(msg)))
  }

  // ---- the Writer ---------------------------------------------------------------------------------

  class Writer {
    var buf: seq<byte>

    constructor ()
      ensures buf == []
    {
      buf := [];
    }

    method PutU8(v: nat)
      modifies this
      ensures buf == old(buf) + [v % 256]
    {
      buf := buf + [v % 256];
    }

    method PutU16(v: int)
      modifies this
      ensures buf == old(buf) + U16(v)
    {
      buf := buf + [v % 256];
      buf := buf + [v / 256 % 256];
    }

    /** Low byte first, eight bits further each turn. */
    method PutU32(v: int)
      modifies this
      ensures buf == old(buf) + U32(v)
    {
      var rest := v;
      for i := 0 to 4
        invariant rest == if i == 0 then v else if i == 1 then v / 256 else if i == 2 then v / 65536
                          else if i == 3 then v / 65536 / 256 else v / 65536 / 65536
        invariant buf == old(buf) + U32(v)[..i]
      {
        assert U32(v)[..i + 1] == U32(v)[..i] + [U32(v)[i]];
        buf := buf + [rest % 256];
        rest := rest / 256;
      }
      assert U32(v)[..4] == U32(v);
    }

    method PutStr(v: seq<byte>)
      modifies this
      ensures buf == old(buf) + U16(|v|) + v
    {
      PutU16(|v|);
      buf := buf + v;
    }
  }

  lemma {:induction false} EntriesBytesSnoc(es: seq<Entry>, e: Entry)
    ensures EntriesBytes(es + [e]) == EntriesBytes(es) + EntryBytes(e)
  {
    if es == [] {
      assert [] + [e] == [e];
    } else {
      EntriesBytesSnoc(es[1..], e);
      assert (es + [e])[1..] == es[1..] + [e];
      PlusAssociates(EntryBytes(es[0]), EntriesBytes(es[1..]), EntryBytes(e));
    }
  }

  /** SendRoomState up to SendPacket. */
  method WriteRoomState(v: RoomView) returns (w: Writer)
    ensures fresh(w) && w.buf == RoomStateBody(v)
  {
    w := new Writer();
    w.PutU32(v.roomId);
    w.PutU8(v.capacity);
    w.PutU16(|v.entries|);
    ghost var head := w.buf;
    for i := 0 to |v.entries|
      invariant w.buf == head + EntriesBytes(v.entries[..i])
    {
      WriteEntry(w, v.entries[i]);
      assert v.entries[..i + 1] == v.entries[..i] + [v.entries[i]];
      EntriesBytesSnoc(v.entries[..i], v.entries[i]);
      PlusAssociates(head, EntriesBytes(v.entries[..i]), EntryBytes(v.entries[i]));
    }
    assert v.entries[..|v.entries|] == v.entries;
  }

  method WriteEntry(w: Writer, e: Entry)
    modifies w
    ensures w.buf == old(w.buf) + EntryBytes(e)
  {
    w.PutU32(e.id);
    w.PutU8(if e.ready then 1 else 0);
    w.PutStr(e.name);
  }

  method WriteSpawn(w: Writer, id: nat, i: nat)
    modifies w
    ensures w.buf == old(w.buf) + SpawnBytes(SpawnOf(id, i))
  {
    var slot := SpawnTile(i);
    w.PutU32(id);
    w.PutU32(TileCenter(slot.0));
    w.PutU32(TileCenter(slot.1));
  }

  /** The body TryStartGame builds: header, map row by row, one spawn per member. */
  method WriteGameStart(matchId: nat, ids: seq<nat>) returns (w: Writer)
    ensures fresh(w) && w.buf == GameStartBody(matchId, ids)
  {
    w := new Writer();
    WriteStartHead(w, matchId);
    assert [] + GameStartHead(matchId) == GameStartHead(matchId);
    WriteTiles(w);
    w.PutU16(|ids|);
    ghost var head := w.buf;
    for i := 0 to |ids|
      invariant w.buf == head + SpawnsBytes(Spawns(ids)[..i])
    {
      WriteSpawn(w, ids[i], i);
      assert Spawns(ids)[..i + 1][..i] == Spawns(ids)[..i];
      PlusAssociates(head, SpawnsBytes(Spawns(ids)[..i]), SpawnBytes(SpawnOf(ids[i], i)));
    }
    assert Spawns(ids)[..|ids|] == Spawns(ids);
  }

  method WriteStartHead(w: Writer, matchId: nat)
    modifies w
    ensures w.buf == old(w.buf) + GameStartHead(matchId)
  {
    w.PutU32(matchId);
    w.PutU16(TICK_RATE);
    w.PutU16(TILE_UNIT);
    w.PutU8(MAP_WIDTH);
    w.PutU8(MAP_HEIGHT);
  }

  method WriteTiles(w: Writer)
    modifies w
    ensures w.buf == old(w.buf) + Tiles()
  {
    for y := 0 to MAP_HEIGHT
      invariant w.buf == old(w.buf) + Tiles()[..y * MAP_WIDTH]
    {
      for x := 0 to MAP_WIDTH
        invariant w.buf == old(w.buf) + Tiles()[..y * MAP_WIDTH + x]
      {
        TileIndex(x, y);
        w.PutU8(if IsWallTile(x, y) then 1 else 0);
        assert Tiles()[..y * MAP_WIDTH + x + 1] == Tiles()[..y * MAP_WIDTH + x] + [Tiles()[y * MAP_WIDTH + x]];
      }
    }
    assert Tiles()[..TILES] == Tiles();
  }
}
