/** The handler table: filled in place once, looked up for every packet. */
module FSM {
  import opened Protocol
  import opened L = Lobby

  const MAX_PACKET_ID := SC_KICK
  const STATES := 5

  function Row(state: PlayerState): (row: nat)
    ensures row < STATES
  {
    match state
    case Start => 0
    case LoggedIn => 1
    case InRoom => 2
    case InGame => 3
    case Closing => 4
  }

  class HandlerTable {
    const rows: array2<Handler>

    /** The table says what the state machine says. */
    ghost predicate Valid()
      reads rows
    {
      && rows.Length0 == STATES && rows.Length1 == MAX_PACKET_ID + 1
      && (forall state: PlayerState, id: nat :: id <= MAX_PACKET_ID ==> rows[Row(state), id] == L.GetHandler(state, id))
    }

    /** InitFSM: an empty table, then the allowed pairs of state and packet. */
    constructor ()
      ensures Valid() && fresh(rows)
    {
      rows := new Handler[STATES, MAX_PACKET_ID + 1]((i, j) => NoHandler);
      new;
      rows[Row(Start), CS_LOGIN] := Login;
      rows[Row(LoggedIn), CS_ENTER_ROOM] := EnterRoomHandler;
      rows[Row(InRoom), CS_CHAT] := ChatHandler;
      rows[Row(InRoom), CS_ENTER_ROOM] := EnterRoomHandler;
      rows[Row(Start), CS_HELLO] := Hello;
      rows[Row(LoggedIn), CS_JOIN_ROOM] := JoinRoom;
      rows[Row(InRoom), CS_READY] := Ready;
    }

    /** The lookup agrees with the state machine on every state and every packet id, in the table or past it. */
    method GetHandler(state: PlayerState, packetId: nat) returns (handler: Handler)
      requires Valid()
      ensures handler == L.GetHandler(state, packetId)
    {
      if packetId > MAX_PACKET_ID {
        return NoHandler;
      }
      return rows[Row(state), packetId];
    }
  }

  /** Every packet of a playing or closing player is blocked; a packet is handled in at most two states,
      and only a known packet is handled at all. */
  lemma WhereHandled(state: PlayerState, id: nat)
    ensures GetHandler(state, id) != NoHandler ==> Known(id) && state in {Start, LoggedIn, InRoom}
    ensures Known(id) ==> exists st :: GetHandler(st, id) != NoHandler
    ensures GetHandler(state, id) != NoHandler && id != CS_ENTER_ROOM ==>
              forall st :: GetHandler(st, id) != NoHandler ==> st == state
  {
    assert Known(id) ==> GetHandler(Start, id) != NoHandler || GetHandler(LoggedIn, id) != NoHandler || GetHandler(InRoom, id) != NoHandler;
  }
}
