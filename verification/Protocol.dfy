/** Packet ids, error codes and the jobs that cross from the network threads to the game thread. */
module Protocol {
  import opened Bytes
  import opened Framing

  type Sid = nat   // a Session*; identities are never reused

  const CS_LOGIN := 1
  const CS_CHAT := 2
  const SC_CHAT := 3
  const CS_ENTER_ROOM := 4
  const CS_HELLO := 10
  const SC_WELCOME := 11
  const CS_JOIN_ROOM := 20
  const SC_ROOM_STATE := 21
  const CS_READY := 22
  const SC_GAME_START := 30
  const SC_SHUTDOWN := 1000
  const SC_KICK := 1001
  const SC_ERROR := 1002

  const PROTOCOL_VERSION := 1

  const ERR_VERSION_MISMATCH := 1
  const ERR_BAD_FORMAT := 2
  const ERR_NOT_ALLOWED := 3
  const ERR_NO_SUCH_ROOM := 4
  const ERR_ROOM_FULL := 5
  const ERR_MATCH_ENDED := 6

  predicate Known(id: nat) {
    id == CS_LOGIN || id == CS_CHAT || id == CS_ENTER_ROOM || id == CS_HELLO || id == CS_JOIN_ROOM || id == CS_READY
  }

  datatype Job = Connect(s: Sid) | Deliver(s: Sid, packet: Packet) | Disconnect(s: Sid)

  const KICK := Packet(SC_KICK, [])

  predicate AllKnown(ps: seq<Packet>) {
    forall i :: 0 <= i < |ps| ==> Known(ps[i].id)
  }

  function Deliveries(s: Sid, ps: seq<Packet>): (jobs: seq<Job>)
    ensures |jobs| == |ps|
    ensures forall i :: 0 <= i < |ps| ==> jobs[i] == Deliver(s, ps[i])
  {
    seq(|ps|, i requires 0 <= i < |ps| => Deliver(s, ps[i]))
  }
}
