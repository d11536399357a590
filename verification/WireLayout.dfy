/** Where the fields of the server's packets lie, byte by byte. */
module WireLayout {
  import opened Bytes
  import opened Framing
  import opened Protocol
  import opened Lobby
  import opened ChatCodec
  import opened LobbyCodec

  /** A packet is its size, its id, both low byte first, and its body. */
  lemma PrintLayout(p: Packet)
    requires p.Valid()
    ensures var b := Print(p);
            && |b| == 4 + |p.body| && b[0] as int + 256 * b[1] as int == |b| && b[2] as int + 256 * b[3] as int == p.id
            && b[4..] == p.body
  {
    HeadOfPrint(p, []);
    assert Print(p) + [] == Print(p);
    assert ReadU16(Print(p), 2) == p.id;
  }

  /** The kick is a header and nothing else. */
  lemma KickLayout()
    ensures Print(KICK) == [4, 0, 233, 3]
  {
  }

  /** The numbers clients know. */
  lemma Numbers()
    ensures PROTOCOL_VERSION == 1 && HEADER_SIZE == 4 && MAX_PACKET_SIZE == 4096 && GAME_ROOM_CAPACITY == 2
    ensures ERR_VERSION_MISMATCH == 1 && ERR_BAD_FORMAT == 2 && ERR_NOT_ALLOWED == 3
    ensures ERR_NO_SUCH_ROOM == 4 && ERR_ROOM_FULL == 5 && ERR_MATCH_ENDED == 6
    ensures forall id :: Known(id) <==> id in {1, 2, 4, 10, 20, 22}
  {
  }

  /** The id of each kind of packet. */
  lemma WireIds(msg: Msg)
    ensures Wire(msg).id == match msg {
              case Chat(_, _, _) => 3
              case Welcome(_, _) => 11
              case RoomState(_) => 21
              case GameStart(_, _) => 30
              case Error(_, _) => 1002
            }
  {
  }

  lemma TwoFields(a: seq<byte>, b: seq<byte>, c: seq<byte>)
    ensures var all := a + b + c;
            all[|a|..|a| + |b|] == b && all[|a| + |b|..] == c
  {
  }

  /** SC_ERROR: the id that was rejected, then the code. */
  lemma ErrorLayout(rejected: nat, code: nat)
    requires rejected < 65536 && code < 65536
    ensures var p := Wire(Error(rejected, code));
            p.id == 1002 && p.Valid() && |p.body| == 4 && ReadU16(p.body, 0) == rejected && ReadU16(p.body, 2) == code
  {
    var b := U16(rejected) + U16(code);
    SizeCutOf(b);
    assert b[0..2] == U16(rejected) && b[2..4] == U16(code);
    ReadU16OfU16(rejected, b, 0);
    ReadU16OfU16(code, b, 2);
  }

  /** SC_WELCOME: a zero, the player's id, the tick. */
  lemma WelcomeLayout(id: nat, tick: nat)
    ensures var p := Wire(Welcome(id, tick));
            && p.id == 11 && p.Valid() && |p.body| == 9 && p.body[0] == 0
            && ReadU32(p.body, 1) == id % 0x1_0000_0000 && ReadU32(p.body, 5) == tick % 0x1_0000_0000
  {
    var b := [0] + U32(id) + U32(tick);
    SizeCutOf(b);
    TwoFields([0], U32(id), U32(tick));
    assert b[5..9] == b[5..];
    ReadU32OfU32(id, b, 1);
    ReadU32OfU32(tick, b, 5);
  }

  /** The map: a wall on the rim, and wherever both coordinates are even. */
  lemma TileAt(x: nat, y: nat)
    requires x < 15 && y < 13
    ensures |Tiles()| == 195
    ensures Tiles()[y * 15 + x] == if x == 0 || x == 14 || y == 0 || y == 12 || (x % 2 == 0 && y % 2 == 0) then 1 else 0
  {
    TileIndex(x, y);
  }

  /** The first player starts in the middle of tile (1, 1), the second of tile (13, 11), and so on in turn. */
  lemma SpawnAtCorner(ids: seq<nat>, i: nat)
    requires i < |ids|
    ensures Spawns(ids)[i] == if i % 2 == 0 then Spawn(ids[i], 1500, 1500) else Spawn(ids[i], 13500, 11500)
  {
  }

  /** SC_GAME_START: the match, 20 ticks a second, tiles of 1000 units, 15 by 13 tiles row by row, and each player's
      id and start. */
  lemma StartLayout(matchId: nat, ids: seq<nat>)
    requires |ids| <= 2 && matchId < 0x1_0000_0000 && forall i :: 0 <= i < |ids| ==> ids[i] < 0x1_0000_0000
    ensures var p := Wire(GameStart(matchId, ids));
            && p.id == 30 && p.Valid() && |p.body| == 207 + 12 * |ids|
            && ReadU32(p.body, 0) == matchId && ReadU16(p.body, 4) == 20 && ReadU16(p.body, 6) == 1000
            && p.body[8] == 15 && p.body[9] == 13 && p.body[10..205] == Tiles() && ReadU16(p.body, 205) == |ids|
            && forall i :: 0 <= i < |ids| ==>
                 && ReadU32(p.body, 207 + 12 * i) == ids[i]
                 && ReadI32(p.body, 211 + 12 * i) == (if i % 2 == 0 then 1500 else 13500)
                 && ReadI32(p.body, 215 + 12 * i) == (if i % 2 == 0 then 1500 else 11500)
  {
    var b := GameStartBody(matchId, ids);
    SizeCutOf(b);
    ReadGameStartOfBody(matchId, ids);
    forall i | 0 <= i < |ids|
      ensures Spawn(ReadU32(b, 207 + 12 * i), ReadI32(b, 211 + 12 * i), ReadI32(b, 215 + 12 * i)) ==
              if i % 2 == 0 then Spawn(ids[i], 1500, 1500) else Spawn(ids[i], 13500, 11500)
    {
      SpawnAtCorner(ids, i);
      assert ReadSpawnsFrom(b, 207, |ids|)[i] == Spawns(ids)[i];
    }
  }
}
