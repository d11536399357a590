# IOCP game and chat server: a Dafny model and its proofs

The server accepts TCP sessions with Windows I/O completion ports, cuts their byte streams into packets on
worker threads, hands the packets as jobs to one game thread, and runs there a lobby of chat rooms and
two-player game rooms. The clients read the server's packets and write their own. This project models
those parts and proves properties of them over all inputs, all interleavings and all runs.

## How the model is laid out

| files | what they model |
|---|---|
| `Bytes`, `Framing` | little-endian integers; the packet stream: parser, printer, chunked reading |
| `RingBuffer`, `GameJobQueue`, `Session` | the classes of the same names, fields changed in place; a session run by one thread at a time |
| `Protocol`, `ChatCodec`, `LobbyCodec`, `WireLayout`, `LobbyWire`, `LobbyPosted` | packet ids, the SC_CHAT encoder and both clients' decoders, the `Writer` users and a reader that follows protocol v1, what messages say on the wire and which of them SendPacket posts |
| `Lobby` | the game thread's state as a value, and what one job does to it: the specification of the game thread |
| `LobbyInvariant`, `LobbySeparation`, `LobbyTheorems`, `LobbyLimits` | what jobs and runs of jobs keep, and exactly where hypotheses are needed |
| `LobbyHandlers` | what each job does, said on the fields of players and rooms and on its effects one by one |
| `FSM`, `GameServer` | the handler table; player and room objects that point at each other, the handlers that change them in place, and the game thread's loop, proved against `Lobby` |
| `Server` | the whole server as a concurrent step system: accept thread, any number of workers, game thread, kernel |
| `ServerShape` ... `ServerTurns`, `ServerSafe` | one invariant per file (`Shape`, `Baton`, `Ending`, `Refs`, `Contexts`, `Doom`, `Log`, `Opening`, `Witness`, `Order`), what every step of every routine does, and that every step keeps all of them |
| `ServerAlone` | that the steps of one worker left alone do what the method of class `Session` does |
| `ServerTheorems`, `ServerDrain`, `ServerFair`, `ServerServes`, `FairRun` | what holds in every state of every run; that the server comes to rest when nothing comes in; that closed sessions are deleted and packets worked through in the end; that there are such runs |
| `ServerDuty`, `ServerReasons`, `ServerCloses`, `ServerGates` | exactly why sessions close, that what must close does, and what no longer happens to a session after that |
| `EndToEnd`, `ServerOutbox`, `Arrival` | from received bytes to the lobby; what the game thread has started to send; from the lobby back to the clients |
| `Clients` | the Unity client's receive loop, the console client's receive thread and packet printer |

In `Server` one step is one atomic operation, one kernel call or one queue operation (`Session.cpp`,
`Network.cpp:17-129`, `Network.cpp:274-305`, `GameServer.cpp:301-340`). A step of a thread is computed by a
function on its program point and the session it is at (`PostStep`, `RecvStep`, `FrameStep`, `CloseStep`,
`SendStep`, `SentStep`, `DestroyStep`, `AcceptStep`, `GameStep`), and `Apply` puts the result into the shared
state. The fields marked history record what happened and are read by no step.

## Hypotheses

- The server runs: `Shutdown` has not begun.
- The kernel: an operation started on a closed socket fails at once, every operation started completes
  once, a receive brings at most 4096 bytes, a failed one none. Completions are dequeued in any order.
- What the environment decides is a parameter of the methods that ask it: whether the kernel starts a receive or a
  send, how much a socket takes, what the clock shows.
- Identities of sessions and operations are never reused; a deleted session stays in the model as a tombstone.
- *Modest* clients, named only where needed: no CS_ENTER_ROOM or CS_JOIN_ROOM names a room number that the
  automatic assignment has yet to give out. Clients that name rooms below 100 are modest.
- *Polite* clients, named only where needed: no CS_ENTER_ROOM comes from a game room or names one.
  `EnterRoom` checks neither capacity nor start, tells nobody and keeps the ready flag (`GameServer.cpp:164-177`;
  only a join takes it down, `GameServer.cpp:586`), so without this hypothesis three things fail in the code.
  `LobbyLimits` says exactly when each of them survives a CS_ENTER_ROOM, and gives runs in which each fails:
  - capacity and match isolation: exactly unless it names a started or full game room the player is not in;
  - true views: exactly when it leaves nobody behind in a game room, and a game room it names had the player as
    its last member already, or is empty and was last shown to the player with only the player in it;
  - eager start: exactly unless a player whose flag is up fills a waiting room in which everyone is ready. That
    room stays full, ready and unstarted until a member acts again.
- *Short* names, named only where needed: a CS_LOGIN brings at most 2035 bytes. SendPacket drops what does not fit
  a packet (`Session.cpp:234-240`) and tells nobody, so two players with longer names join a room and start a
  match without having been shown each other. `LobbyPosted` says exactly when a room state is posted.
- *Fair* turns, named only where needed: a busy thread steps at some time, a send and a receive on a closed
  socket complete, a queued completion is dequeued, and a job that does not dangle is popped.
- The 32-bit counters have not wrapped, named only where needed; `size_t` has 64 bits.

## Where code and documents disagree

- A CS_JOIN_ROOM for a chat room in use is answered with ERR_NO_SUCH_ROOM (`GameServer.cpp:563-568`);
  README.md:41 of the repository says ERR_ROOM_FULL. The model does as the code does.
- `docs/packet-flow.md` describes a send queue; the code posts every send at once (`Session.cpp:60-110`).
- A packet the state machine blocks is only logged (`GameServer.cpp:67-73`), never answered with SC_ERROR.

## Model

| member | source | states |
|---|---|---|
| `Bytes.ReadU32OfU32` | client/client.cpp:88-95 | the clients' 32-bit reader inverts the little-endian writer, whatever surrounds the four bytes |
| `Bytes.ReadI32OfU32` | client/client.cpp:103-109 | every signed 32-bit integer written in two's complement is read back as itself |
| `Framing.ParseOfPrintAll` | IOCP-GameChatServer/IOCP-GameChatServer/Session.cpp:144-180 | packets of legal size printed back to back and followed by any bytes parse to those packets and then to the parse of what follows |
| `Framing.PrintAllOfParse` | IOCP-GameChatServer/IOCP-GameChatServer/Session.cpp:144-180 | the packets taken off any stream, printed again, and the left-over are byte for byte the stream |
| `Framing.ParseAppend` | IOCP-GameChatServer/IOCP-GameChatServer/Session.cpp:144-180 | a stream cut anywhere can be resumed from the left-over: same packets, same left-over, same bad header |
| `Framing.FeedIsParse` | IOCP-GameChatServer/IOCP-GameChatServer/Session.cpp:137-180 | for every division of a stream into chunks the receiver emits the packets of the parse of the whole stream and stops at the same invalid header |
| `Framing.WaitingIsShort` | IOCP-GameChatServer/IOCP-GameChatServer/Session.cpp:146-162 | a receiver that waits for more holds fewer bytes than the largest packet |
| `RingBuffer.RingBuffer.Write` | IOCP-GameChatServer/IOCP-GameChatServer/RingBuffer.cpp:5-21 | across the wrap-around, a write that fits appends exactly the source bytes to the queue the ring stands for; any other, a negative size included, is refused and changes nothing |
| `RingBuffer.RingBuffer.Peek` | IOCP-GameChatServer/IOCP-GameChatServer/RingBuffer.cpp:23-36 | a peek copies the front of the queue across the wrap-around and leaves the queue alone; it fails exactly when fewer bytes are stored |
| `RingBuffer.RingBuffer.Read` | IOCP-GameChatServer/IOCP-GameChatServer/RingBuffer.cpp:38-47 | what is read and what remains are together what was stored; a failed read changes nothing |
| `RingBuffer.RingBuffer.Has` | IOCP-GameChatServer/IOCP-GameChatServer/RingBuffer.cpp:49-52 | true exactly when the queue holds that many bytes |
| `RingBuffer.RingBuffer.Skip` | IOCP-GameChatServer/IOCP-GameChatServer/RingBuffer.cpp:54-58 | drops exactly that many bytes off the front when so many are stored; nothing is checked, and a larger size wraps the `size_t` count round |
| `GameJobQueue.GameJobQueue.Push` | IOCP-GameChatServer/IOCP-GameChatServer/GameJobQueue.cpp:3-10 | appends one job: everything pushed is what was popped and then what is queued |
| `GameJobQueue.GameJobQueue.Pop` | IOCP-GameChatServer/IOCP-GameChatServer/GameJobQueue.cpp:12-22 | first in, first out, false exactly on the empty queue |
| `Session.Session.PostRecv` | IOCP-GameChatServer/IOCP-GameChatServer/Session.cpp:15-58 | nothing happens when a receive is posted or the session is not open; otherwise the kernel is asked: if it starts the receive it is posted and counted and the session stays open, if it does not the count is taken back, the session ends closed and one Disconnect is pushed |
| `Session.Session.PostSend` | IOCP-GameChatServer/IOCP-GameChatServer/Session.cpp:60-110 | on an open session and data of legal size the kernel is asked: if it starts the send exactly these bytes are on their way, counted, and the session stays open; if it does not nothing is, the session ends closed and one Disconnect is pushed; otherwise nothing happens |
| `Session.Session.SendPacket` | IOCP-GameChatServer/IOCP-GameChatServer/Session.cpp:223-258 | on an open session a packet that fits is sent as exactly its print, header first, if the kernel starts the send, and closes the session if it does not; anything else changes nothing |
| `Session.Session.Close` | IOCP-GameChatServer/IOCP-GameChatServer/Session.cpp:266-286 | the first close makes the session Closed, later ones do nothing |
| `Session.Session.RequestClose` | IOCP-GameChatServer/IOCP-GameChatServer/Session.cpp:208-221 | ends Closed and pushes a Disconnect exactly when the session was open |
| `Session.Session.ProcessPacket` | IOCP-GameChatServer/IOCP-GameChatServer/Protocol.cpp:24-52 | a known packet becomes one job; any other closes the session, and if it was open puts exactly one kick among the sends when the kernel starts it; a session being closed drops either |
| `Session.Session.FrameOne` | IOCP-GameChatServer/IOCP-GameChatServer/Session.cpp:144-180 | one turn of the loop waits, stops or takes exactly the first packet off the ring, as the parser would, and answers an unknown one with a kick |
| `Session.Session.OnRecvComplete` | IOCP-GameChatServer/IOCP-GameChatServer/Session.cpp:112-183 | one completed receive hands over exactly the packets of the parse of the left-over and the new bytes, keeps the new left-over, sends one kick exactly if a packet is unknown and the kernel starts it, and leaves the session open, its next receive posted, exactly when all packets were known, no header was bad and the kernel starts the receive |
| `Session.HandoffOfKnown` | IOCP-GameChatServer/IOCP-GameChatServer/Protocol.cpp:43-51 | a batch of known packets is delivered whole and in order |
| `Session.HandoffDeliversKnown` | IOCP-GameChatServer/IOCP-GameChatServer/Protocol.cpp:43-51 | a batch with unknown packets still delivers all its known ones, and disconnects exactly once: a kick does not stop the batch |
| `LobbyInvariant.InitialInv` | IOCP-GameChatServer/IOCP-GameChatServer/GameServer.cpp:342-348 | the first lobby, with room 1 in it, has all the invariants |
| `LobbyInvariant.StepKeepsInv` | IOCP-GameChatServer/IOCP-GameChatServer/GameServer.cpp:301-340 | after any job of any client: a session is in a room's list exactly when its player points to the room, once; listed players are live; ids are distinct; a room pointer goes with InRoom or InGame; game rooms have capacity 2 and a number from 1; a playing player sits in a started room; as many rooms have started as match ids were used; no room has more than two who play |
| `LobbySeparation.StepKeepsGood` | IOCP-GameChatServer/IOCP-GameChatServer/GameServer.cpp:541-631 | with polite clients: game rooms stay within capacity, all members of a started room play, a room that is full and ready has started, and the last SC_ROOM_STATE handed over for each member of a game room has the number and the capacity of that room and, at each place of its list, the id, the flag and the name of that player |
| `LobbySeparation.NoChatReachesAMatch` | IOCP-GameChatServer/IOCP-GameChatServer/Room.cpp:45-73 | no SC_CHAT is ever addressed to a player in a match |
| `LobbyTheorems.JoinRoomIffJoinable` | IOCP-GameChatServer/IOCP-GameChatServer/GameServer.cpp:496-592 | a CS_JOIN_ROOM is granted exactly when any room will do or the one named is new, an empty chat room or an open game room. For any room, it gets an open one if there is one, and nothing is made, else the next number, which then counts on; then the player sits last in a game room of two numbered from 1, with its id and name, not ready; the members are told the room as it is, in order; no other player and no other room has changed. Otherwise nothing has changed and one error says which of the reasons it was. It dangles exactly when any room will do and there is none to give |
| `LobbyTheorems.StartsOnlyWhenDue` | IOCP-GameChatServer/IOCP-GameChatServer/GameServer.cpp:674-734 | a match starts only on a CS_READY, in a room with exactly its capacity of distinct ready members, who all play from then on and are each told once with the next match id, after the last room state |
| `LobbyTheorems.RoomsAreForever` | IOCP-GameChatServer/IOCP-GameChatServer/GameServer.cpp:144-162 | no job of any client removes a room, changes its number, ends its being a game room or un-starts it |
| `LobbyTheorems.PlayingIsFrozen` | IOCP-GameChatServer/IOCP-GameChatServer/FSM.cpp:70-70 | no job but its own Disconnect changes anything of a player in a match |
| `LobbyTheorems.StepIsAddressed` | IOCP-GameChatServer/IOCP-GameChatServer/GameServer.cpp:658-671 | every packet and close of a job is for its own session or a player in a room, and always for a player who is still there |
| `LobbyTheorems.DisconnectLeavesNoTrace` | IOCP-GameChatServer/IOCP-GameChatServer/GameServer.cpp:191-215 | after its Disconnect no player and no room refers to a session and no packet is for it |
| `LobbyTheorems.WhoComesAndGoes` | IOCP-GameChatServer/IOCP-GameChatServer/GameServer.cpp:191-237 | only a Connect adds a session and only its Disconnect removes it |
| `LobbyTheorems.OthersKeepTheirSeats` | IOCP-GameChatServer/IOCP-GameChatServer/GameServer.cpp:164-188 | no job adds, removes, seats or unseats another session's player |
| `LobbyTheorems.ChatReachesTheRoom` | IOCP-GameChatServer/IOCP-GameChatServer/Room.cpp:45-73 | a chat goes exactly once to each other member of the sender's room and to nobody else, with the sender's id and name and the clipped text, and changes nothing |
| `LobbyTheorems.DanglesIff` | IOCP-GameChatServer/IOCP-GameChatServer/GameServer.cpp:510-515 | a room pointer dangles exactly when automatic assignment finds no open room and its next number taken |
| `LobbyTheorems.RoomsStayBelow` | IOCP-GameChatServer/IOCP-GameChatServer/GameServer.cpp:510-526 | with modest clients every room number stays below the next automatic one, so assignment never dangles |
| `LobbyTheorems.RunKeepsInv` | IOCP-GameChatServer/IOCP-GameChatServer/GameServer.cpp:301-340 | the invariants hold at the end of every run |
| `LobbyTheorems.RunNeverDangles` | IOCP-GameChatServer/IOCP-GameChatServer/GameServer.cpp:510-515 | no run of modest clients dangles |
| `LobbyTheorems.RunKeepsGood` | IOCP-GameChatServer/IOCP-GameChatServer/GameServer.cpp:541-734 | isolation, capacity, eager start and true room states, field by field, at the end of every run of polite clients |
| `LobbyTheorems.MatchLastsUntilDisconnect` | IOCP-GameChatServer/IOCP-GameChatServer/FSM.cpp:70-70 | a player in a match is the same player, in the same room, at the end of any run without its Disconnect |
| `LobbyHandlers.TheRestIsIgnored` | IOCP-GameChatServer/IOCP-GameChatServer/FSM.cpp:46-77 | a packet in a state other than the seven pairs listed, and any packet of a session without a player, changes nothing and is answered with nothing |
| `LobbyHandlers.LoginNames` | IOCP-GameChatServer/IOCP-GameChatServer/GameServer.cpp:105-120 | a CS_LOGIN logs its player in under the name it brings, or the one it has when it brings none; no other field of it, no other player, no room and no counter changes, and nobody is told |
| `LobbyHandlers.HelloWelcomes` | IOCP-GameChatServer/IOCP-GameChatServer/GameServer.cpp:451-492 | a CS_HELLO is welcomed exactly when its body is the bytes 1 and 0: logged in, same id, room and flag, its name kept or "Player " and the decimal digits that read as its id, one welcome of that id at that tick; any other changes nothing, gets one error that says whether size or version was wrong, and closes the session |
| `LobbyHandlers.DecimalSpells` | IOCP-GameChatServer/IOCP-GameChatServer/GameServer.cpp:478-479 | the digits of the default name read back as the number, without a leading zero |
| `LobbyHandlers.EnterRoomMovesThere` | IOCP-GameChatServer/IOCP-GameChatServer/GameServer.cpp:78-177 | a CS_ENTER_ROOM of a named player with a room number takes the player out of its old room, the others there keeping their order, and puts it last into the room named, made as a chat room if there was none; everything else about rooms and players stays, and nobody is told; any other changes nothing |
| `LobbyHandlers.ChatIsSaid` | IOCP-GameChatServer/IOCP-GameChatServer/Room.cpp:45-73 | a CS_CHAT with a text goes once to each other member of the room in the order of the list, with the sender's id and name and as much of the text as fits 4096 bytes; without a text, or with a name that is empty or leaves no room, it goes nowhere; it changes nothing |
| `LobbyHandlers.ReadySets` | IOCP-GameChatServer/IOCP-GameChatServer/GameServer.cpp:595-734 | a CS_READY of one byte in a room not started makes the flag what the byte says, up or down, and no other field of any player changes; the members are told the room with that flag in order; the match starts exactly if the room is then full and all are ready, with the next match id and all ids in order to each member; every other CS_READY changes nothing and gets the one error for its reason |
| `LobbyHandlers.ConnectAdds` | IOCP-GameChatServer/IOCP-GameChatServer/GameServer.cpp:229-237 | a Connect adds a player with the next id, no name, no room and its flag down, and changes nothing else |
| `LobbyHandlers.DisconnectRemoves` | IOCP-GameChatServer/IOCP-GameChatServer/GameServer.cpp:191-215 | a Disconnect takes its player out, and out of its room, where the others keep their order and are told the room as it is if it is a game room; nothing else changes |
| `LobbyHandlers.FirstLobby` | IOCP-GameChatServer/IOCP-GameChatServer/GameServer.cpp:342-348 | the server starts with room 1, a chat room, nobody in it, and the numbers 1, 100 and 1 |
| `LobbyLimits.EnterRoomIsolatesIff` | IOCP-GameChatServer/IOCP-GameChatServer/GameServer.cpp:164-177 | a CS_ENTER_ROOM keeps match isolation exactly unless it names a started or full game room the player is not in |
| `LobbyLimits.NamedRoomIff` | IOCP-GameChatServer/IOCP-GameChatServer/GameServer.cpp:164-177 | the room entered keeps capacity and players-only exactly under that condition |
| `LobbyLimits.EnterRoomShowsIff` | IOCP-GameChatServer/IOCP-GameChatServer/GameServer.cpp:164-177 | a CS_ENTER_ROOM leaves every shown view true exactly when it leaves nobody behind in a game room and the game room it names, if it is one, looks as it did: the player was its last member, or it is empty and the player was last shown just itself there |
| `LobbyLimits.EnterRoomStartsIff` | IOCP-GameChatServer/IOCP-GameChatServer/GameServer.cpp:164-177 | a CS_ENTER_ROOM leaves no room that is due unstarted exactly unless the player, its ready flag still up, fills a waiting room in which everyone is ready |
| `LobbyLimits.StepKeepsGoodIff` | IOCP-GameChatServer/IOCP-GameChatServer/GameServer.cpp:301-340 | for every job of every client: capacity, isolation, eager start and true views survive it exactly unless it is a CS_ENTER_ROOM that fails one of the three conditions above |
| `LobbyLimits.RunStaysGoodIff` | IOCP-GameChatServer/IOCP-GameChatServer/GameServer.cpp:301-340 | over every run: all its lobbies are within capacity, isolated, eagerly started and truly shown exactly when none of its jobs did that harm |
| `LobbyLimits.ImmodestRunDangles` | IOCP-GameChatServer/IOCP-GameChatServer/GameServer.cpp:510-515 | a run in which a chat room named 100 makes the first automatic assignment dangle |
| `LobbyLimits.ImpoliteRunBreaks` | IOCP-GameChatServer/IOCP-GameChatServer/GameServer.cpp:164-177 | a run in which CS_ENTER_ROOM leaves a stale view and then puts three into a room for two |
| `LobbyLimits.ImpoliteRunStartsNothing` | IOCP-GameChatServer/IOCP-GameChatServer/GameServer.cpp:164-177 | a run in which a player ready alone in room 6 enters room 5, where another is ready alone: full, all ready, and not started |
| `LobbyLimits.MatchRunStarts` | IOCP-GameChatServer/IOCP-GameChatServer/GameServer.cpp:541-734 | a run from the first lobby in which two players join a room, say ready and play: the theorems about matches speak of something |
| `FSM.HandlerTable.constructor` | IOCP-GameChatServer/IOCP-GameChatServer/FSM.cpp:46-71 | the filled table agrees with the state machine on every state and packet id |
| `FSM.HandlerTable.GetHandler` | IOCP-GameChatServer/IOCP-GameChatServer/FSM.cpp:73-77 | the lookup agrees with the state machine on every state and id, past the table too |
| `FSM.WhereHandled` | IOCP-GameChatServer/IOCP-GameChatServer/FSM.cpp:46-71 | only known packets are handled, each somewhere, each but CS_ENTER_ROOM in one state only, and none while playing |
| `GameServer.RoomObject.Join` | IOCP-GameChatServer/IOCP-GameChatServer/Room.cpp:10-25 | a player not listed is appended and points to the room; a listed one stays as it is |
| `GameServer.RoomObject.Leave` | IOCP-GameChatServer/IOCP-GameChatServer/Room.cpp:27-43 | the player's first entry goes and its pointer is cleared, the others keep their order; a player not listed stays as it is |
| `GameServer.RoomObject.BroadcastChat` | IOCP-GameChatServer/IOCP-GameChatServer/Room.cpp:45-73 | the clipped message to every listed player but the sender, once each and in order, or nothing when the name leaves no room |
| `GameServer.GameServer.constructor` | IOCP-GameChatServer/IOCP-GameChatServer/GameServer.cpp:342-348 | the objects stand for the first lobby |
| `GameServer.GameServer.GetOrCreateRoom` | IOCP-GameChatServer/IOCP-GameChatServer/GameServer.cpp:153-162 | the room under the key, made if there is none |
| `GameServer.GameServer.EnterRoom` | IOCP-GameChatServer/IOCP-GameChatServer/GameServer.cpp:164-177 | on the objects: out of the old room, the new one made if needed, into its list |
| `GameServer.GameServer.LeaveRoom` | IOCP-GameChatServer/IOCP-GameChatServer/GameServer.cpp:179-188 | on the objects: out of the list the player points to, and no pointer left |
| `GameServer.GameServer.HandleLogin` | IOCP-GameChatServer/IOCP-GameChatServer/GameServer.cpp:105-120 | the state machine's login, on the objects; the state advances even with an empty name |
| `GameServer.GameServer.HandleEnterRoom` | IOCP-GameChatServer/IOCP-GameChatServer/GameServer.cpp:78-102 | the lobby's enter-room step, on the objects |
| `GameServer.GameServer.HandleChat` | IOCP-GameChatServer/IOCP-GameChatServer/GameServer.cpp:123-140 | the lobby's chat step, on the objects |
| `GameServer.GameServer.HandleHello` | IOCP-GameChatServer/IOCP-GameChatServer/GameServer.cpp:451-492 | the lobby's hello step, on the objects: error and close before any change; what that does is `LobbyHandlers.HelloWelcomes` |
| `GameServer.GameServer.FindOpenRoom` | IOCP-GameChatServer/IOCP-GameChatServer/GameServer.cpp:500-508 | a room that is open when there is one, whatever order the map yields them in, and none otherwise |
| `GameServer.GameServer.AcquireGameRoom` | IOCP-GameChatServer/IOCP-GameChatServer/GameServer.cpp:496-538 | finds, makes or turns the room exactly as the lobby's specification, the lost room included; what that gives is `LobbyTheorems.JoinRoomIffJoinable` |
| `GameServer.GameServer.HandleJoinRoom` | IOCP-GameChatServer/IOCP-GameChatServer/GameServer.cpp:541-592 | the lobby's join-room step, on the objects and with its packets |
| `GameServer.GameServer.SendRoomState` | IOCP-GameChatServer/IOCP-GameChatServer/GameServer.cpp:634-656 | one SC_ROOM_STATE with the room's number, capacity and its members in order, each with its id, flag and name |
| `GameServer.GameServer.BroadcastRoomState` | IOCP-GameChatServer/IOCP-GameChatServer/GameServer.cpp:658-671 | the same room state to every member, in order |
| `GameServer.GameServer.TryStartGame` | IOCP-GameChatServer/IOCP-GameChatServer/GameServer.cpp:674-734 | starts the match exactly when it is due, with its packets |
| `GameServer.GameServer.HandleReady` | IOCP-GameChatServer/IOCP-GameChatServer/GameServer.cpp:595-631 | the lobby's ready step, on the objects: flag, room state, then start; what that does is `LobbyHandlers.ReadySets` |
| `GameServer.GameServer.OnSessionConnected` | IOCP-GameChatServer/IOCP-GameChatServer/GameServer.cpp:229-237 | the lobby's connect step, on the objects |
| `GameServer.GameServer.OnSessionDisconnected` | IOCP-GameChatServer/IOCP-GameChatServer/GameServer.cpp:191-215 | the lobby's disconnect step, on the objects, and the objects stay consistent |
| `GameServer.GameServer.OnPacket` | IOCP-GameChatServer/IOCP-GameChatServer/GameServer.cpp:61-76 | the lobby's step for a packet, dispatched through the table |
| `GameServer.GameServer.Run` | IOCP-GameChatServer/IOCP-GameChatServer/GameServer.cpp:313-338 | one job does to the objects what the lobby's step does to the value, effects included |
| `GameServer.GameServer.GameThreadLoop` | IOCP-GameChatServer/IOCP-GameChatServer/GameServer.cpp:301-340 | for as many turns as the server runs, whatever other threads push in between: the jobs run are the first of those pushed, in order, one in every turn that finds one, at the tick of that turn; the objects and the outbox are what a run of these jobs gives; only a lost room ends it early |
| `GameServer.EnoughTurns` | IOCP-GameChatServer/IOCP-GameChatServer/GameServer.cpp:301-311 | when nothing more is pushed, as many turns as there are jobs are enough for all of them, and no turn is wasted |
| `ChatCodec.ReadChatOfChatBody` | client/client.cpp:183-212 | id, name and text of every chat body are read back, whatever bytes follow |
| `ChatCodec.ChatBodyOfReadChat` | client/client.cpp:183-212 | a body that is read is, up to trailing bytes, the body of what was read |
| `ChatCodec.ClippedChatArrives` | IOCP-GameChatServer/IOCP-GameChatServer/Room.cpp:53-63 | for every name that passes the guard and every message the clipped packet fits, is clipped only when it must be, and then fills the packet; the reader recovers id, name and clipped text |
| `ChatCodec.EncodeChat` | IOCP-GameChatServer/IOCP-GameChatServer/Player.cpp:37-71 | fills the body at the moving offset with exactly the chat body, and drops it exactly when it is too large |
| `ChatCodec.ParseServerChat` | client/client.cpp:183-212 | the console client's decoder reads what the format says, and refuses exactly what is not a chat body |
| `ChatCodec.HandleServerChat` | client/client.cs:324-362 | the Unity client's decoder, inside the whole packet, reads the same |
| `LobbyCodec.ReadRoomStateOfBody` | IOCP-GameChatServer/IOCP-GameChatServer/GameServer.cpp:634-656 | an SC_ROOM_STATE reads back as the room written: number, capacity, and every member in order |
| `LobbyCodec.RoomStateHanded` | IOCP-GameChatServer/IOCP-GameChatServer/GameServer.cpp:413-413 | what is handed on after the size is cut to 16 bits reads back as the room exactly when its encoding is shorter than 65536 bytes, and is then posted exactly when it fits a packet |
| `LobbyCodec.GameRoomStateReadsBack` | IOCP-GameChatServer/IOCP-GameChatServer/GameServer.cpp:634-656 | a room state of at most two members with names that came in packets always reads back |
| `LobbyCodec.ReadGameStartOfBody` | IOCP-GameChatServer/IOCP-GameChatServer/GameServer.cpp:692-718 | an SC_GAME_START reads back with its match id, the constants, the tiles row by row and a spawn for each player in order |
| `LobbyCodec.SpawnsAreOpen` | IOCP-GameChatServer/IOCP-GameChatServer/GameServer.cpp:706-718 | every spawn is the centre of a tile that the map sent says is open |
| `LobbyCodec.Writer.PutU32` | IOCP-GameChatServer/IOCP-GameChatServer/GameServer.cpp:399-403 | the loop appends exactly the four little-endian bytes |
| `LobbyCodec.WriteRoomState` | IOCP-GameChatServer/IOCP-GameChatServer/GameServer.cpp:639-653 | the Writer ends with exactly the room state's encoding |
| `LobbyCodec.WriteGameStart` | IOCP-GameChatServer/IOCP-GameChatServer/GameServer.cpp:694-718 | the Writer ends with exactly the game start's encoding |
| `WireLayout.PrintLayout` | IOCP-GameChatServer/IOCP-GameChatServer/Session.cpp:249-255 | a packet is its size and its id, low byte first, and its body |
| `WireLayout.KickLayout` | IOCP-GameChatServer/IOCP-GameChatServer/Protocol.cpp:24-52 | the kick is the four bytes of a header with id 1001 |
| `WireLayout.Numbers` | IOCP-GameChatServer/IOCP-GameChatServer/Protocol.h:9-41 | the version, the sizes, the error codes and the ids of the packets that are known |
| `WireLayout.WireIds` | IOCP-GameChatServer/IOCP-GameChatServer/Protocol.h:9-26 | the packet id of each kind of message |
| `WireLayout.ErrorLayout` | IOCP-GameChatServer/IOCP-GameChatServer/GameServer.cpp:436-445 | an SC_ERROR has the rejected id at 0 and the code at 2 |
| `WireLayout.WelcomeLayout` | IOCP-GameChatServer/IOCP-GameChatServer/GameServer.cpp:481-485 | an SC_WELCOME has a zero at 0, the player's id at 1 and the tick at 5 |
| `WireLayout.TileAt` | IOCP-GameChatServer/IOCP-GameChatServer/GameServer.cpp:419-424 | the tile at y * 15 + x is a wall exactly on the rim and where x and y are both even |
| `WireLayout.StartLayout` | IOCP-GameChatServer/IOCP-GameChatServer/GameServer.cpp:692-718 | an SC_GAME_START has, at their places, the match id, 20, 1000, 15, 13, the tiles, the number of players, and for each in turn its id and (1500, 1500) or (13500, 11500) |
| `LobbyWire.StepKeepsNames` | IOCP-GameChatServer/IOCP-GameChatServer/GameServer.cpp:105-120 | no job makes a name longer than those brought by CS_LOGIN, or than a default name: names that came in packets of legal size fit in one |
| `LobbyWire.RunKeepsNames` | IOCP-GameChatServer/IOCP-GameChatServer/GameServer.cpp:105-120 | the same over every run, as long as the counters have not wrapped |
| `LobbyWire.GameRoomStateArrives` | IOCP-GameChatServer/IOCP-GameChatServer/GameServer.cpp:634-656 | the room state given to SendPacket for a game room within capacity reads back as that room |
| `LobbyWire.MatchStartsAsShown` | IOCP-GameChatServer/IOCP-GameChatServer/GameServer.cpp:674-734 | each member of a starting match is told the room state and, with nothing for it in between, a start whose spawns name exactly the players of that room state, once each and in order, on open tiles; the start always passes the size check of SendPacket, the room state exactly when 7 bytes and 7 and the name of each member are at most 4092 |
| `LobbyWire.PostedIff` | IOCP-GameChatServer/IOCP-GameChatServer/Session.cpp:234-240 | a room state of less than 65536 bytes passes the size check of SendPacket exactly when it has at most 4092 |
| `LobbyWire.ShortNamesFit` | IOCP-GameChatServer/IOCP-GameChatServer/Session.cpp:234-240 | a room state of two players with names of at most 2035 bytes passes the check |
| `LobbyPosted.StepIsSeenIff` | IOCP-GameChatServer/IOCP-GameChatServer/GameServer.cpp:634-671 | for every polite job from a lobby in which everyone in a game room was posted it as it is, number, capacity and the id, flag and name of each member: so it stays exactly when each game room the job tells has 7 + the sum of 7 + name length of at most 4092 |
| `LobbyPosted.RunIsSeenIff` | IOCP-GameChatServer/IOCP-GameChatServer/GameServer.cpp:634-671 | over every run of polite clients: what each member of a game room reads off the last SC_ROOM_STATE posted to it is its room as it is, after every job, exactly when every job keeps to that size |
| `LobbyPosted.RoomsArriveAsTheyAre` | IOCP-GameChatServer/IOCP-GameChatServer/GameServer.cpp:634-671 | so it is at the end of every run of polite clients with names of at most 2035 bytes |
| `LobbyPosted.LongNamesRun` | IOCP-GameChatServer/IOCP-GameChatServer/Session.cpp:234-240 | for every longer name that fits a packet, a run of polite clients and legal packets in which the room state of two players is dropped, neither sees it, and their match starts all the same |
| `LobbyPosted.ChatArrives` | IOCP-GameChatServer/IOCP-GameChatServer/Room.cpp:45-73 | each other member of the sender's room is posted exactly one SC_CHAT, which reads back as the sender's id and name and the clipped text, and nobody else is posted anything |
| `LobbyPosted.RunChatsNoMatch` | IOCP-GameChatServer/IOCP-GameChatServer/Room.cpp:45-73 | in every run of polite clients no job sends a chat to a player in a match |
| `Clients.UnityClient.HandlePacket` | client/client.cs:303-322 | SHUTDOWN and KICK end the running, a chat is decoded, and every packet is handled |
| `Clients.UnityClient.Drain` | client/client.cs:264-285 | the inner loop over the growing list handles exactly the packets of the parse, even after one that stops |
| `Clients.UnityClient.RecvLoop` | client/client.cs:239-301 | the packets handled are those of the chunks read, reading stops at the first chunk that gives a reason to, the overflow guard never fires, and a stream without SHUTDOWN or KICK is handled exactly as the server's parser reads it |
| `Clients.ConsoleClient.RecvAll` | client/client.cpp:125-137 | however the bytes come, all asked for are received in order, or the connection ends first |
| `Clients.ConsoleClient.RecvThread` | client/client.cpp:214-279 | the packets handled are those of the parse up to and with the first that stops it |
| `Clients.ConsoleClient.SendAll` | client/client.cpp:111-123 | everything is sent, in order, exactly when the socket's answers add up to it before an error; otherwise its first part, as far as they go |
| `Clients.ConsoleClient.SendPacket` | client/client.cpp:139-156 | what reaches the socket is the packet printed, all of it exactly when the socket's answers add up to it; one too large is refused |
| `Clients.TakenAll` | client/client.cpp:111-123 | a socket takes all of len bytes exactly when its first answers are no errors and add up to len |
| `Clients.SentPacketsArrive` | IOCP-GameChatServer/IOCP-GameChatServer/Session.cpp:223-258 | any packets sent one after the other arrive as they are under any division into chunks |
| `ServerBaton.BatonsKept` | IOCP-GameChatServer/IOCP-GameChatServer/Session.cpp:15-57 | a step keeps the receive path with one party, or gives it up only on a session no longer open |
| `ServerEnding.EndingsKept` | IOCP-GameChatServer/IOCP-GameChatServer/Session.cpp:208-286 | a step takes the one disconnect of a session through its stages in order, once |
| `ServerRefs.AccountedKept` | IOCP-GameChatServer/IOCP-GameChatServer/Session.cpp:30-55 | a step keeps pendingIO equal to operations, undelivered completions and threads holding a reference |
| `ServerRefs.CompleteAccounted` | IOCP-GameChatServer/IOCP-GameChatServer/Network.cpp:71-123 | a completion moves its unit from the kernel to the queue |
| `ServerContexts.PlacedKept` | IOCP-GameChatServer/IOCP-GameChatServer/Session.cpp:68-109 | a step keeps every operation in one place and frees a send context only from the hand that holds it |
| `ServerDoom.DoomsKept` | IOCP-GameChatServer/IOCP-GameChatServer/Network.cpp:17-30 | a step keeps the deletion with one thread, once, and everything off a session a worker has seen with nothing pending |
| `ServerLog.LoggedKept` | IOCP-GameChatServer/IOCP-GameChatServer/GameServer.cpp:239-285 | a step keeps one Connect first and at most one Disconnect in the log of jobs, and the lobby with exactly the sessions between the two |
| `ServerOpening.OpeningsKept` | IOCP-GameChatServer/IOCP-GameChatServer/Network.cpp:293-302 | until the first receive is posted nothing else in the server is about the session but its Connect |
| `ServerOpening.OperationsAreTied` | IOCP-GameChatServer/IOCP-GameChatServer/Network.cpp:296-302 | a session with an operation or a completion is tied to the completion port |
| `ServerWitness.WitnessedKept` | IOCP-GameChatServer/IOCP-GameChatServer/Network.cpp:17-30 | a step that leaves a session undeleted after its game side is over leaves someone who will yet try |
| `ServerOrder.OrderedKept` | IOCP-GameChatServer/IOCP-GameChatServer/Session.cpp:137-180 | a step keeps the bytes fed equal to the packets taken and what the ring holds |
| `ServerOrder.HandedKept` | IOCP-GameChatServer/IOCP-GameChatServer/Protocol.cpp:24-52 | a step keeps the packets pushed an in-order subsequence of those taken, all of them while the session is open |
| `ServerTurns.NeverOverflows` | IOCP-GameChatServer/IOCP-GameChatServer/Session.cpp:137-142 | a left-over and a full receive fit in the ring: the overflow branch is never taken |
| `ServerSafe.InitIsSafe` | IOCP-GameChatServer/IOCP-GameChatServer/Network.cpp:323-365 | the invariants hold before the first step |
| `ServerSafe.BusyCanRun` | IOCP-GameChatServer/IOCP-GameChatServer/Session.cpp:164-179 | a busy thread can always take its next step; nothing is skipped that is not stored |
| `ServerSafe.NextKeepsSafe` | IOCP-GameChatServer/IOCP-GameChatServer/Network.cpp:17-129 | every step of any thread and of the kernel keeps all the invariants, one per file; that failures and requests close their session is `ServerReasons` |
| `ServerAlone.BatchAlone` | IOCP-GameChatServer/IOCP-GameChatServer/Session.cpp:144-182 | the steps of the framing loop, taken by one worker with nobody in between, hand over and answer any batch, unknown packets included, exactly as `Session.OnRecvComplete` is proved to: a kick is sent once, the session closes and the batch goes on, and it ends at the next receive or at the close |
| `ServerAlone.BatchWhileClosing` | IOCP-GameChatServer/IOCP-GameChatServer/Protocol.cpp:24-52 | while another thread is closing the session a batch is taken off the ring and dropped: nothing is handed over and nothing sent |
| `ServerTheorems.RunIsSafe` | IOCP-GameChatServer/IOCP-GameChatServer/Network.cpp:17-129 | the invariants hold in every state of every run, so whatever is proved of a state that has them is proved of every reachable state |
| `ServerTheorems.OneReceiver` | IOCP-GameChatServer/IOCP-GameChatServer/Session.cpp:15-57 | in every state of every run at most one party, thread, kernel or queue, owns the receive buffer and ring of a session; an open session always has one; recvPosted never turns a PostRecv away |
| `ServerTheorems.OnlyTheReceiverMoves` | IOCP-GameChatServer/IOCP-GameChatServer/Session.cpp:112-183 | in every run a step that changes the receive buffer, the ring or the packets taken off it is a step of the one party that receives for the session |
| `ServerTheorems.RingNeverOverflows` | IOCP-GameChatServer/IOCP-GameChatServer/Session.cpp:137-142 | in every run a completed receive fits in the ring |
| `ServerTheorems.PendingIsExact` | IOCP-GameChatServer/IOCP-GameChatServer/Session.cpp:30-115 | in every state pendingIO equals kernel operations, undelivered I/O completions and threads between the two halves of their count |
| `ServerTheorems.DestructionIsSafe` | IOCP-GameChatServer/IOCP-GameChatServer/Network.cpp:17-30 | once TryBeginDestroy has succeeded, and ever after, no kernel operation and no I/O completion refers to the session's buffers, it is deleted at most once, no player, room or packet still to be sent refers to it, and the game thread is at it only to post its cleanup completion or to end a job that does nothing |
| `ServerTheorems.OneDestroyer` | IOCP-GameChatServer/IOCP-GameChatServer/Session.cpp:260-264 | at most one thread is past TryBeginDestroy for a session, and none once it is deleted |
| `ServerTheorems.ContextsAreFreedOnce` | IOCP-GameChatServer/IOCP-GameChatServer/Session.cpp:68-109 | a send context is freed at most once; freed, it is in no hand, kernel or queue; not freed, it is in one of them |
| `ServerTheorems.EventsAreOnce` | IOCP-GameChatServer/IOCP-GameChatServer/Session.cpp:208-221 | in every run each session has one Connect job, before all its others, and at most one Disconnect job |
| `ServerTheorems.DisconnectIsFinal` | IOCP-GameChatServer/IOCP-GameChatServer/GameServer.cpp:61-65 | once its Disconnect has been popped no player, room or pending send refers to a session, and a later packet changes nothing and is answered with nothing |
| `ServerTheorems.NothingIsForgotten` | IOCP-GameChatServer/IOCP-GameChatServer/Network.cpp:17-129 | in every state an open session is being received for, and one neither open nor being destroyed has a closing thread, a Disconnect job, the game thread on it, an operation, a completion or a worker on the way to TryDestroySession |
| `ServerTheorems.NothingLeaks` | IOCP-GameChatServer/IOCP-GameChatServer/Network.cpp:17-129 | when nothing is left to do every session is open with its receive in the kernel or was deleted exactly once, and every send context not in the kernel was freed exactly once |
| `ServerTheorems.NothingIsStuck` | IOCP-GameChatServer/IOCP-GameChatServer/Network.cpp:61-129 | in every state each busy thread, operation, completion and job can go on, a job only excepted that would dangle |
| `ServerDrain.InternalStepShrinks` | IOCP-GameChatServer/IOCP-GameChatServer/Network.cpp:61-131 | every step of any thread, every completion of a send and every completion of a receive on a closed socket leaves less to do: fewer jobs, or as many and fewer effects, or as many and less work |
| `ServerDrain.NeverSpins` | IOCP-GameChatServer/IOCP-GameChatServer/Network.cpp:61-131 | in a run that never ends, from any reachable state, there is again and again a connection, a received byte or the completion of a receive on an open socket: internal steps, whichever are taken and in whatever order, come to an end |
| `ServerDrain.ComesToRest` | IOCP-GameChatServer/IOCP-GameChatServer/Network.cpp:61-131 | every run can be continued by internal steps alone to a state where none is left |
| `ServerDrain.RestIsQuiescent` | IOCP-GameChatServer/IOCP-GameChatServer/Network.cpp:61-131 | with no internal step left every thread is idle, both queues are empty and the kernel holds only receives on open sockets, unless the next job dangles |
| `ServerDrain.RestIsClean` | IOCP-GameChatServer/IOCP-GameChatServer/Network.cpp:17-30 | a server at rest has leaked nothing: every session is open and received for or was deleted exactly once, every send context was freed exactly once |
| `ServerDrain.RunComesClean` | IOCP-GameChatServer/IOCP-GameChatServer/Network.cpp:17-129 | every run can be continued by internal steps alone to a state that is quiescent and has leaked nothing, or to a job that dangles |
| `ServerFair.StepAdvances` | IOCP-GameChatServer/IOCP-GameChatServer/Network.cpp:17-129 | for a session no longer open, whatever step anybody takes anywhere either lowers its rank or leaves it and the helper it waits for as they were; the helper's own step lowers it |
| `ServerFair.SomeoneHelps` | IOCP-GameChatServer/IOCP-GameChatServer/Network.cpp:17-129 | a session neither open nor deleted always has such a helper, with a step to take unless the game thread is at a job that dangles |
| `ServerFair.ClosedIsDeleted` | IOCP-GameChatServer/IOCP-GameChatServer/Network.cpp:17-30 | in every endless run in which whoever waits gets a turn, every session that is no longer open is in the end deleted, once, however much other traffic goes on, unless a job dangles before that |
| `ServerServes.ListensAgain` | IOCP-GameChatServer/IOCP-GameChatServer/Session.cpp:112-183 | under fair turns an open session has its next receive with the kernel again in the end, or stops being open |
| `ServerServes.JobsArePopped` | IOCP-GameChatServer/IOCP-GameChatServer/GameServer.cpp:301-340 | under fair turns every job pushed is popped in the end, unless one before it dangles |
| `ServerServes.PacketsAreWorkedThrough` | IOCP-GameChatServer/IOCP-GameChatServer/Session.cpp:112-183 | under fair turns the complete packets that have come in on a session are in the end all popped by the game thread, in order, however much other traffic goes on, unless the session stops being open or a job dangles first |
| `ServerServes.ModestPacketsAreWorkedThrough` | IOCP-GameChatServer/IOCP-GameChatServer/Session.cpp:112-183 | with modest clients: unless the session stops being open |
| `FairRun.FairRunExists` | IOCP-GameChatServer/IOCP-GameChatServer/Network.cpp:17-129 | there is an endless run with fair turns and modest clients in which a session closes and is deleted: the theorems about fair turns speak of something |
| `ServerOutbox.StepKeepsOutbox` | IOCP-GameChatServer/IOCP-GameChatServer/Session.cpp:223-258 | a step keeps what the game thread has started to send to a session, with what it has in hand for it, equal to what its jobs told the session, as long as the session is open |
| `ServerOutbox.OnlyClosedSessionsLose` | IOCP-GameChatServer/IOCP-GameChatServer/Session.cpp:60-110 | in every run what the game thread has started to send to a session is the first part of the packets its jobs told it; while the session is open and no send to it has failed, only what is still in hand is missing: the state check of SendPacket and a failed PostSend lose packets of sessions that close, and of no others |
| `ServerReasons.StepKeepsEnds` | IOCP-GameChatServer/IOCP-GameChatServer/Session.cpp:208-286 | whatever step anybody takes, a session that is bound to end, by a thread, a completion or bytes that make no sense, stays so or is closed |
| `ServerReasons.OnlyReasonsEnd` | IOCP-GameChatServer/IOCP-GameChatServer/Session.cpp:208-286 | a step that gives no reason leaves a session that nothing is bound to end so |
| `ServerReasons.EndsForAReason` | IOCP-GameChatServer/IOCP-GameChatServer/Session.cpp:208-286 | in every state of every run a session is closed or bound to be exactly when there has been a reason: a receive or send of it that failed or brought nothing, a kernel call for it that failed, bytes received that are no packets or unknown ones, or a job that asks for it |
| `ServerReasons.ClosesForAReason` | IOCP-GameChatServer/IOCP-GameChatServer/Session.cpp:208-286 | in every run no session is closed without such a reason |
| `ServerReasons.OpenWithoutReason` | IOCP-GameChatServer/IOCP-GameChatServer/Session.cpp:112-183 | when nothing is left to do a session is open exactly when there has been none |
| `ServerReasons.FailedSendCloses` | IOCP-GameChatServer/IOCP-GameChatServer/Session.cpp:185-206 | in every run, once a worker that took up a failed send is idle again the session is no longer open |
| `ServerReasons.FailedReceiveCloses` | IOCP-GameChatServer/IOCP-GameChatServer/Session.cpp:129-133 | so for a failed receive |
| `ServerReasons.AskedIsClosed` | IOCP-GameChatServer/IOCP-GameChatServer/GameServer.cpp:456-476 | in every run, once the game thread is past the effect of a job that asks for a session to be closed, and ever after, the session is no longer open |
| `ServerCloses.EndsIsClosed` | IOCP-GameChatServer/IOCP-GameChatServer/Session.cpp:208-286 | under fair turns a session that is bound to end is closed in the end |
| `ServerCloses.ReasonsDelete` | IOCP-GameChatServer/IOCP-GameChatServer/Network.cpp:17-129 | under fair turns whatever gives a reason to close a session has it closed and deleted in the end, once, however much other traffic goes on, unless a job dangles first |
| `ServerGates.ShutOffForGood` | IOCP-GameChatServer/IOCP-GameChatServer/Session.cpp:15-183 | in every run, once a session is no longer open and nobody is past a check of that, no receive and no send is ever started on it and no packet of it handed over |
| `ServerGates.ContextsForTheLiving` | IOCP-GameChatServer/IOCP-GameChatServer/Session.cpp:60-68 | in every run a send context is made only for a session that is not closed |
| `ServerGates.RegistryIsExact` | IOCP-GameChatServer/IOCP-GameChatServer/Network.cpp:161-180 | in every state a session is in the registry from when the accept thread put it there until the thread that won the right to delete it took it out |
| `EndToEnd.ModestServerComesClean` | IOCP-GameChatServer/IOCP-GameChatServer/Network.cpp:17-129 | with modest clients a server at rest is quiescent, every session is open and received for or was deleted exactly once, and every send context was freed exactly once |
| `EndToEnd.ModestServerDeletes` | IOCP-GameChatServer/IOCP-GameChatServer/Network.cpp:17-129 | with modest clients and fair turns every session that is no longer open is deleted in the end, whatever else the server is doing |
| `EndToEnd.WireIsReceived` | IOCP-GameChatServer/IOCP-GameChatServer/Session.cpp:112-142 | the bytes recorded for a session are the data of its completed receives, in order |
| `EndToEnd.PacketsAreTheParse` | IOCP-GameChatServer/IOCP-GameChatServer/Session.cpp:144-182 | under any interleaving the packets pushed for a session are an in-order subsequence of the parse of the bytes received; while it is open and no worker is in a batch they are exactly the parse of what was fed, and of everything received when the next receive is with the kernel |
| `EndToEnd.PoppedInOrder` | IOCP-GameChatServer/IOCP-GameChatServer/GameJobQueue.cpp:3-22 | the packets of a session worked through so far are the first of those pushed |
| `EndToEnd.LobbyIsItsRun` | IOCP-GameChatServer/IOCP-GameChatServer/GameServer.cpp:301-340 | in every state the lobby is what the jobs popped so far, in the order pushed, make of the first lobby |
| `EndToEnd.ServerKeepsInv` | IOCP-GameChatServer/IOCP-GameChatServer/GameServer.cpp:301-340 | whatever clients send and threads do, the lobby of the running server has its invariants |
| `EndToEnd.ServerKeepsGood` | IOCP-GameChatServer/IOCP-GameChatServer/GameServer.cpp:541-734 | with polite clients the running server's matches are isolated, eagerly started and handed over as they are, field by field |
| `Arrival.ServerRoomsArrive` | IOCP-GameChatServer/IOCP-GameChatServer/GameServer.cpp:634-671 | with polite clients, while each job keeps to that size and the counters have not wrapped: what a member of a game room of the running server reads off the last SC_ROOM_STATE whose send was started is its room, number, capacity and the id, flag and name of each member, if its session is open, nothing for it is in the game thread's hands and no send to it has failed |
| `Arrival.ShortNamesArrive` | IOCP-GameChatServer/IOCP-GameChatServer/GameServer.cpp:634-671 | so it is when all names brought by CS_LOGIN have at most 2035 bytes |
| `Arrival.ServerChatsNoMatch` | IOCP-GameChatServer/IOCP-GameChatServer/Room.cpp:45-73 | with polite clients, in every state of the running server no chat still to be carried out is for a player in a match |
| `EndToEnd.LogIsLegal` | IOCP-GameChatServer/IOCP-GameChatServer/Protocol.cpp:24-52 | in every reachable state no packet in the job log is of illegal size |
| `EndToEnd.ServerNeverDangles` | IOCP-GameChatServer/IOCP-GameChatServer/GameServer.cpp:510-515 | with modest clients the game thread can always take the next job |

## Left out

- Winsock, Win32, thread creation, console, logging and the Unity user interface: the kernel is the steps named above, with their outcomes left open.
- The shutdown sequence (`Network.cpp:182-224`, `GameServer.cpp:24-49`): its wait for I/O is commented out, and Connect jobs may be dropped. The checks of `IsShuttingDown` are taken to be false.
- Use of a session by a handler after its deletion: handlers go on reading the session after they have decremented `pendingIO`, and a cleanup completion can outlive it. The theorems are about what the kernel holds; the model keeps a tombstone.
- The order and completeness of bytes after WSASend, partial sends included: every start of a send is one operation, and what is said of packets sent is said of sends started.
- `memory_order`: each atomic operation is one indivisible step.
- The session registry map keyed by socket handle: only whether a session is in it is kept.
- Tick values, which are any number, and the decoding of names as UTF-8: names are bytes.
- The packets 31 to 34, which the protocol specifies and the code does not implement.
- Null arguments: `SendPacket` with a null body, the null checks on players, rooms and sessions, and the second lookup of the player inside each handler, which `OnPacket` has made before.
- The other in-place setters and getters of `Player`, and the C# client's own copies of the printer and of `SendAll`: they do what the modelled ones do.
- GameServer.RoomObject: the key under which a room is held is a ghost field, because the source's 16-bit number does not determine it.
- LobbyWire.MatchStartsAsShown: assumes 32-bit counters that have not wrapped, since the wire carries 32 bits.
