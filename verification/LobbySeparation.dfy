/**
 Chat rooms and game rooms kept apart: what holds when no CS_ENTER_ROOM leaves or names a game room.
 Game rooms stay within their capacity, a started room holds players only, a room that is due has
 started, and everyone waiting in a game room has been handed it as it is: what SendPacket makes of that is
 the subject of module LobbyPosted.
 */
module LobbySeparation {
  import opened Bytes
  import opened Framing
  import opened Protocol
  import opened Lobby
  import opened LobbyInvariant

  /** A CS_ENTER_ROOM neither comes from a game room nor names one. */
  ghost predicate Polite(l: Lobby, job: Job) {
    job.Deliver? && job.s in l.players && job.packet.id == CS_ENTER_ROOM ==>
      && (l.players[job.s].room.To? ==> !RoomAt(l, l.players[job.s].room.key).IsGame())
      && (|job.packet.body| >= 4 ==> !RoomAt(l, ReadI32(job.packet.body, 0)).IsGame())
  }

  ghost predicate WithinCapacity(l: Lobby, k: int) {
    RoomAt(l, k).IsGame() ==> |RoomAt(l, k).members| <= RoomAt(l, k).capacity
  }

  ghost predicate PlayersOnly(l: Lobby, k: int) {
    RoomAt(l, k).started ==> forall m :: m in RoomAt(l, k).members ==> Get(l, m).state == InGame
  }

  /** One room: within capacity, all its members playing once it started, started as soon as due. */
  ghost predicate Tidy(l: Lobby, k: int) {
    WithinCapacity(l, k) && PlayersOnly(l, k) && !Due(l, k)
  }

  ghost predicate Separated(l: Lobby) {
    forall k :: k in l.rooms ==> Tidy(l, k)
  }

  /** Everyone in a game room was last handed that room as it is now. */
  ghost predicate ShownRoom(l: Lobby, views: map<Sid, RoomView>, k: int) {
    RoomAt(l, k).IsGame() ==> forall m :: m in RoomAt(l, k).members ==> m in views && views[m] == View(l, k)
  }

  ghost predicate UpToDate(l: Lobby, views: map<Sid, RoomView>) {
    forall k :: k in l.rooms ==> ShownRoom(l, views, k)
  }

  ghost predicate Good(l: Lobby, views: map<Sid, RoomView>) {
    Core(l) && Separated(l) && UpToDate(l, views)
  }

  // ---- what a room state says ---------------------------------------------------------------------

  /** The view has the room's number and capacity, and for each member, at its place in the list, the id, the ready
      flag and the name of that player. */
  ghost predicate Depicts(l: Lobby, k: int, v: RoomView) {
    && k in l.rooms && v.roomId == l.rooms[k].id && v.capacity == l.rooms[k].capacity
    && |v.entries| == |l.rooms[k].members|
    && (forall i :: 0 <= i < |v.entries| ==>
          var m := l.rooms[k].members[i];
          && m in l.players
          && v.entries[i].id == l.players[m].id && v.entries[i].ready == l.players[m].ready && v.entries[i].name == l.players[m].name)
  }

  lemma ViewDepicts(l: Lobby, k: int)
    requires Linked(l) && k in l.rooms
    ensures Depicts(l, k, View(l, k))
  {
    assert forall i :: 0 <= i < |l.rooms[k].members| ==> l.rooms[k].members[i] in l.rooms[k].members;
  }

  lemma DepictsIsView(l: Lobby, k: int, v: RoomView)
    requires Linked(l) && k in l.rooms
    ensures Depicts(l, k, v) <==> v == View(l, k)
  {
    ViewDepicts(l, k);
    if Depicts(l, k, v) {
      assert v.entries == View(l, k).entries;
    }
  }

  /** Each member of room k, in the order of the list, is handed the room as it is in l. */
  ghost predicate TellsMembers(l: Lobby, k: int, fx: seq<Effect>) {
    && k in l.rooms && |fx| == |l.rooms[k].members|
    && (forall i :: 0 <= i < |fx| ==>
          && fx[i].Send? && fx[i].to == l.rooms[k].members[i]
          && fx[i].msg.RoomState? && Depicts(l, k, fx[i].msg.view))
  }

  lemma BroadcastTellsMembers(l: Lobby, k: int)
    requires Linked(l) && k in l.rooms
    ensures TellsMembers(l, k, BroadcastRoomState(l, k))
  {
    ViewDepicts(l, k);
  }

  /** Each player in a game room was last handed the number, the capacity and the members of that room as they are. */
  ghost predicate ViewsAreTrue(l: Lobby, views: map<Sid, RoomView>) {
    forall m :: m in l.players && l.players[m].room.To? && RoomAt(l, l.players[m].room.key).capacity != 0 ==>
      m in views && Depicts(l, l.players[m].room.key, views[m])
  }

  lemma UpToDateIsTrue(l: Lobby, views: map<Sid, RoomView>)
    requires Linked(l) && UpToDate(l, views)
    ensures ViewsAreTrue(l, views)
  {
    forall m | m in l.players && l.players[m].room.To? && RoomAt(l, l.players[m].room.key).capacity != 0
      ensures m in views && Depicts(l, l.players[m].room.key, views[m])
    {
      var k := l.players[m].room.key;
      assert ShownRoom(l, views, k);
      ViewDepicts(l, k);
    }
  }

  ghost predicate NoChatToPlaying(l: Lobby, fx: seq<Effect>) {
    forall i :: 0 <= i < |fx| && fx[i].Send? && fx[i].msg.Chat? ==> Get(l, fx[i].to).state != InGame
  }

  // ---- what a list of effects shows ---------------------------------------------------------------

  lemma {:induction false} ShownToAll(views: map<Sid, RoomView>, ms: seq<Sid>, view: RoomView)
    ensures var after := Shown(views, SendAll(ms, RoomState(view)));
            && (forall m :: m in ms ==> m in after && after[m] == view)
            && (forall m :: m !in ms ==> (m in after <==> m in views) && (m in views ==> after[m] == views[m]))
  {
    if ms == [] {
    } else {
      var init := ms[..|ms| - 1];
      ShownToAll(views, init, view);
      var fx := SendAll(ms, RoomState(view));
      assert fx[..|fx| - 1] == SendAll(init, RoomState(view));
      assert ms == init + [ms[|ms| - 1]];
    }
  }

  lemma {:induction false} ShownNothing(views: map<Sid, RoomView>, fx: seq<Effect>)
    requires forall i :: 0 <= i < |fx| ==> fx[i].Close? || !fx[i].msg.RoomState?
    ensures Shown(views, fx) == views
  {
    if fx != [] {
      ShownNothing(views, fx[..|fx| - 1]);
    }
  }

  lemma {:induction false} ShownAppend(views: map<Sid, RoomView>, a: seq<Effect>, b: seq<Effect>)
    ensures Shown(views, a + b) == Shown(Shown(views, a), b)
  {
    if b == [] {
      assert a + b == a;
    } else {
      ShownAppend(views, a, b[..|b| - 1]);
      assert (a + b)[..|a + b| - 1] == a + b[..|b| - 1];
    }
  }

  // ---- rooms a job does not touch -----------------------------------------------------------------

  /** Same room, and each of its members unchanged. */
  ghost predicate Untouched(l: Lobby, l1: Lobby, k: int) {
    && RoomAt(l1, k) == RoomAt(l, k)
    && (forall m :: m in RoomAt(l, k).members ==> Get(l1, m) == Get(l, m))
  }

  lemma UntouchedStays(l: Lobby, views: map<Sid, RoomView>, l1: Lobby, views1: map<Sid, RoomView>, k: int)
    requires Untouched(l, l1, k) && Tidy(l, k) && ShownRoom(l, views, k)
    requires forall m :: m in RoomAt(l, k).members && m in views ==> m in views1 && views1[m] == views[m]
    ensures Tidy(l1, k) && ShownRoom(l1, views1, k)
  {
    var ms := RoomAt(l, k).members;
    assert forall i :: 0 <= i < |ms| ==> ms[i] in ms;
    assert View(l1, k) == View(l, k);
    assert AllReady(l1, ms) == AllReady(l, ms);
  }

  /** A chat room is tidy and shows nothing, whatever is in it. */
  lemma ChatRoomIsTidy(l: Lobby, views: map<Sid, RoomView>, k: int)
    requires !RoomAt(l, k).IsGame() && !RoomAt(l, k).started
    ensures Tidy(l, k) && ShownRoom(l, views, k)
  {
  }

  /** Players of another room are other players. */
  lemma OtherRoom(l: Lobby, k: int, r: int)
    requires Linked(l) && k in l.rooms && r in l.rooms && k != r
    ensures forall m :: m in l.rooms[r].members ==> m in l.players && m !in l.rooms[k].members
  {
    forall m | m in l.rooms[r].members
      ensures m in l.players && m !in l.rooms[k].members
    {
      assert l.players[m].room == To(r);
    }
  }

  // ---- the jobs -----------------------------------------------------------------------------------

  lemma ConnectStays(l: Lobby, views: map<Sid, RoomView>, s: Sid)
    requires Good(l, views)
    ensures Good(OnConnect(l, s), views)
  {
    var l1 := OnConnect(l, s);
    ConnectKeeps(l, s);
    forall k | k in l1.rooms
      ensures Tidy(l1, k) && ShownRoom(l1, views, k)
    {
      UntouchedStays(l, views, l1, views, k);
    }
  }

  /** A player in no room changes. */
  lemma OutsiderStays(l: Lobby, views: map<Sid, RoomView>, s: Sid, p: Player)
    requires Good(l, views) && s in l.players && l.players[s].room.Null?
    requires p.id == l.players[s].id && p.room.Null? && p.state in {Start, LoggedIn}
    ensures Good(SetPlayer(l, s, p), views)
  {
    var l1 := SetPlayer(l, s, p);
    EditPlayer(l, s, p);
    forall k | k in l1.rooms
      ensures Tidy(l1, k) && ShownRoom(l1, views, k)
    {
      UntouchedStays(l, views, l1, views, k);
    }
  }

  /** Only player s and the touched rooms change, and rooms only their members. */
  ghost predicate Frame(l: Lobby, l1: Lobby, s: Sid, touched: set<int>) {
    && (forall m :: m != s ==> Get(l1, m) == Get(l, m))
    && (forall k :: k !in touched ==> (k in l1.rooms <==> k in l.rooms) && RoomAt(l1, k) == RoomAt(l, k))
    && (forall k :: RoomAt(l1, k) == RoomAt(l, k).(members := RoomAt(l1, k).members))
  }

  lemma LeaveFrame(l: Lobby, s: Sid)
    requires Linked(l) && s in l.players
    ensures Frame(l, LeaveCurrent(l, s), s, if l.players[s].room.To? then {l.players[s].room.key} else {})
  {
    LeaveForm(l, s);
  }

  lemma JoinFrame(l: Lobby, s: Sid, k: int)
    requires Linked(l) && s in l.players && l.players[s].room.Null? && k in l.rooms
    ensures Frame(l, Join(l, s, k), s, {k})
  {
    JoinForm(l, s, k);
  }

  lemma CreateFrame(l: Lobby, s: Sid, k: int)
    ensures Frame(l, GetOrCreateRoom(l, k), s, {k})
  {
  }

  lemma FrameThen(l: Lobby, l1: Lobby, l2: Lobby, s: Sid, a: set<int>, b: set<int>)
    requires Frame(l, l1, s, a) && Frame(l1, l2, s, b)
    ensures Frame(l, l2, s, a + b)
  {
  }

  /** A CS_ENTER_ROOM changes its sender, the room left and the room named. */
  ghost predicate EnterFrame(l: Lobby, l1: Lobby, s: Sid, body: seq<byte>) {
    Frame(l, l1, s, (if Get(l, s).room.To? then {Get(l, s).room.key} else {}) +
                    (if |body| >= 4 then {ReadI32(body, 0)} else {}))
  }

  lemma FrameThenPlayer(l: Lobby, l1: Lobby, s: Sid, a: set<int>, p: Player)
    requires Frame(l, l1, s, a)
    ensures Frame(l, SetPlayer(l1, s, p), s, a)
  {
  }

  lemma EnterRoomForm(l: Lobby, s: Sid, body: seq<byte>)
    requires Linked(l) && s in l.players
    ensures EnterFrame(l, OnEnterRoom(l, s, body).lobby, s, body)
  {
    var p := l.players[s];
    if p.name != [] && |body| >= 4 {
      var l1 := EnterRoom(l, s, ReadI32(body, 0));
      EnterFrames(l, s, ReadI32(body, 0));
      FrameThenPlayer(l, l1, s, (if p.room.To? then {p.room.key} else {}) + {ReadI32(body, 0)}, Get(l1, s).(state := InRoom));
    }
  }

  lemma EnterJoinFrame(l: Lobby, s: Sid, k: int)
    requires Linked(l) && s in l.players
    ensures var ready := GetOrCreateRoom(LeaveCurrent(l, s), k); Frame(ready, Join(ready, s, k), s, {k})
  {
    LeaveForm(l, s);
    LeaveLinked(l, s);
    JoinFrame(GetOrCreateRoom(LeaveCurrent(l, s), k), s, k);
  }

  lemma FrameThenThen(l: Lobby, l1: Lobby, l2: Lobby, l3: Lobby, s: Sid, a: set<int>, k: int)
    requires Frame(l, l1, s, a) && Frame(l1, l2, s, {k}) && Frame(l2, l3, s, {k})
    ensures Frame(l, l3, s, a + {k})
  {
    FrameThen(l, l1, l2, s, a, {k});
    FrameThen(l, l2, l3, s, a + {k}, {k});
    assert a + {k} + {k} == a + {k};
  }

  lemma EnterFrames(l: Lobby, s: Sid, k: int)
    requires Linked(l) && s in l.players
    ensures Frame(l, EnterRoom(l, s, k), s, (if l.players[s].room.To? then {l.players[s].room.key} else {}) + {k})
  {
    var was := if l.players[s].room.To? then {l.players[s].room.key} else {};
    var left := LeaveCurrent(l, s);
    assert Frame(l, left, s, was) by { LeaveFrame(l, s); }
    assert Frame(left, GetOrCreateRoom(left, k), s, {k}) by { CreateFrame(left, s, k); }
    assert Frame(GetOrCreateRoom(left, k), EnterRoom(l, s, k), s, {k}) by { EnterJoinFrame(l, s, k); }
    FrameThenThen(l, left, GetOrCreateRoom(left, k), EnterRoom(l, s, k), s, was, k);
  }

  lemma EnterRoomStays(l: Lobby, views: map<Sid, RoomView>, s: Sid, packet: Packet)
    requires Good(l, views) && Polite(l, Deliver(s, packet)) && packet.id == CS_ENTER_ROOM
    requires s in l.players && l.players[s].state in {LoggedIn, InRoom}
    ensures Good(OnEnterRoom(l, s, packet.body).lobby, views)
  {
    var l1 := OnEnterRoom(l, s, packet.body).lobby;
    EnterRoomKeeps(l, s, packet.body);
    EnterRoomForm(l, s, packet.body);
    forall k | k in l1.rooms
      ensures Tidy(l1, k) && ShownRoom(l1, views, k)
    {
      if l.players[s].room == To(k) || (|packet.body| >= 4 && k == ReadI32(packet.body, 0)) {
        ChatRoomIsTidy(l1, views, k);
      } else {
        assert s !in l.rooms[k].members;
        UntouchedStays(l, views, l1, views, k);
      }
    }
  }

  /** Preparing a game room moves nobody. */
  lemma AcquireStays(l: Lobby, views: map<Sid, RoomView>, requested: int, env: Env)
    requires Good(l, views) && PickOk(l, env) && requested >= 0
    ensures var a := AcquireGameRoom(l, requested, env.pick); a.Acquired? ==> Good(a.lobby, views)
  {
    var a := AcquireGameRoom(l, requested, env.pick);
    AcquireKeeps(l, requested, env);
    if a.Acquired? && a.lobby != l {
      forall k | k in a.lobby.rooms
        ensures Tidy(a.lobby, k) && ShownRoom(a.lobby, views, k)
      {
        if k == a.k {
          assert a.lobby.rooms[k].members == [];
        } else {
          UntouchedStays(l, views, a.lobby, views, k);
        }
      }
    }
  }

  lemma SeatRoomIsTidy(l: Lobby, views: map<Sid, RoomView>, s: Sid, k: int)
    requires Core(l) && s in l.players && l.players[s].state == LoggedIn
    requires k in l.rooms && l.rooms[k].IsOpen()
    ensures var l1 := Seat(l, s, k); Tidy(l1, k) && ShownRoom(l1, Shown(views, BroadcastRoomState(l1, k)), k)
  {
    var l1 := Seat(l, s, k);
    SeatKeeps(l, s, k);
    var ms := l1.rooms[k].members;
    ShownToAll(views, ms, View(l1, k));
    assert ms[|ms| - 1] == s && !Get(l1, s).ready;
  }

  lemma SeatElsewhere(l: Lobby, views: map<Sid, RoomView>, s: Sid, k: int, r: int)
    requires Core(l) && s in l.players && l.players[s].state == LoggedIn
    requires k in l.rooms && r in l.rooms && r != k && Tidy(l, r) && ShownRoom(l, views, r)
    ensures var l1 := Seat(l, s, k); Tidy(l1, r) && ShownRoom(l1, Shown(views, BroadcastRoomState(l1, k)), r)
  {
    var l1 := Seat(l, s, k);
    SeatKeeps(l, s, k);
    ShownToAll(views, l1.rooms[k].members, View(l1, k));
    OtherRoom(l, k, r);
    assert s !in l.rooms[r].members;
    UntouchedStays(l, views, l1, Shown(views, BroadcastRoomState(l1, k)), r);
  }

  lemma SeatStays(l: Lobby, views: map<Sid, RoomView>, s: Sid, k: int)
    requires Good(l, views) && s in l.players && l.players[s].state == LoggedIn
    requires k in l.rooms && l.rooms[k].IsOpen()
    ensures Good(Seat(l, s, k), Shown(views, BroadcastRoomState(Seat(l, s, k), k)))
  {
    var l1 := Seat(l, s, k);
    SeatKeeps(l, s, k);
    forall r | r in l1.rooms
      ensures Tidy(l1, r) && ShownRoom(l1, Shown(views, BroadcastRoomState(l1, k)), r)
    {
      if r == k {
        SeatRoomIsTidy(l, views, s, k);
      } else {
        SeatElsewhere(l, views, s, k, r);
      }
    }
  }

  lemma JoinRoomStays(l: Lobby, views: map<Sid, RoomView>, s: Sid, body: seq<byte>, env: Env)
    requires Good(l, views) && PickOk(l, env) && s in l.players && l.players[s].state == LoggedIn
    ensures var o := OnJoinRoom(l, s, body, env.pick); o.Done? ==> Good(o.lobby, Shown(views, o.effects))
  {
    var o := OnJoinRoom(l, s, body, env.pick);
    if |body| == 4 && ReadI32(body, 0) >= 0 {
      AcquireStays(l, views, ReadI32(body, 0), env);
      AcquireKeeps(l, ReadI32(body, 0), env);
      var a := AcquireGameRoom(l, ReadI32(body, 0), env.pick);
      if a.Acquired? {
        if RoomAt(a.lobby, a.k).started || RoomAt(a.lobby, a.k).IsFull() {
          ShownNothing(views, o.effects);
        } else {
          SeatStays(a.lobby, views, s, a.k);
        }
      } else if o.Done? {
        ShownNothing(views, o.effects);
      }
    } else {
      ShownNothing(views, o.effects);
    }
  }

  /** The ready flag is set and shown to the whole room, which may now be due. */
  ghost predicate GoodButDue(l: Lobby, views: map<Sid, RoomView>, k: int) {
    && Core(l) && UpToDate(l, views) && k in l.rooms && WithinCapacity(l, k) && PlayersOnly(l, k)
    && (forall r :: r in l.rooms && r != k ==> Tidy(l, r))
  }

  lemma ReadyShown(l: Lobby, views: map<Sid, RoomView>, s: Sid, flag: bool)
    requires Good(l, views) && s in l.players && l.players[s].state == InRoom
    ensures var k := l.players[s].room.key;
            var l1 := SetPlayer(l, s, l.players[s].(ready := flag));
            GoodButDue(l1, Shown(views, BroadcastRoomState(l1, k)), k)
  {
    var p := l.players[s];
    var k := p.room.key;
    var l1 := SetPlayer(l, s, p.(ready := flag));
    EditPlayer(l, s, p.(ready := flag));
    var views1 := Shown(views, BroadcastRoomState(l1, k));
    ShownToAll(views, l1.rooms[k].members, View(l1, k));
    forall r | r in l1.rooms
      ensures ShownRoom(l1, views1, r) && (r != k ==> Tidy(l1, r))
    {
      if r != k {
        OtherRoom(l, k, r);
        UntouchedStays(l, views, l1, views1, r);
      } else {
        assert Tidy(l, k);
      }
    }
  }

  lemma StartStays(l: Lobby, views: map<Sid, RoomView>, k: int)
    requires GoodButDue(l, views, k)
    ensures Good(TryStartGame(l, k), views)
  {
    var l1 := TryStartGame(l, k);
    if Due(l, k) {
      StartKeeps(l, k);
      forall r | r in l1.rooms
        ensures Tidy(l1, r) && ShownRoom(l1, views, r)
      {
        if r == k {
          assert View(l1, k) == View(l, k);
        } else {
          OtherRoom(l, k, r);
          UntouchedStays(l, views, l1, views, r);
        }
      }
    }
  }

  lemma ReadyStays(l: Lobby, views: map<Sid, RoomView>, s: Sid, body: seq<byte>)
    requires Good(l, views) && s in l.players && l.players[s].state == InRoom
    ensures var o := OnReady(l, s, body); Good(o.lobby, Shown(views, o.effects))
  {
    var o := OnReady(l, s, body);
    var p := l.players[s];
    var k := p.room.key;
    if RoomAt(l, k).started || |body| != 1 {
      ShownNothing(views, o.effects);
    } else {
      var flag := body[0] != 0;
      var l1 := SetPlayer(l, s, p.(ready := flag));
      ReadyShown(l, views, s, flag);
      var views1 := Shown(views, BroadcastRoomState(l1, k));
      StartStays(l1, views1, k);
      ShownAppend(views, BroadcastRoomState(l1, k), StartEffects(l1, k));
      ShownNothing(views1, StartEffects(l1, k));
    }
  }

  lemma DisconnectStays(l: Lobby, views: map<Sid, RoomView>, s: Sid)
    requires Good(l, views)
    ensures var o := OnDisconnect(l, s); Good(o.lobby, Shown(views, o.effects))
  {
    if s in l.players {
      var o := OnDisconnect(l, s);
      var room := l.players[s].room;
      DisconnectKeeps(l, s);
      LeaveForm(l, s);
      var views1 := Shown(views, o.effects);
      if room.To? {
        RemoveFacts(l.rooms[room.key].members, s);
        ShownToAll(views, RoomAt(o.lobby, room.key).members, View(o.lobby, room.key));
      }
      forall k | k in o.lobby.rooms
        ensures Tidy(o.lobby, k) && ShownRoom(o.lobby, views1, k)
      {
        if room == To(k) {
          LeaverStays(l, views, s, k);
        } else {
          assert forall m :: m in l.rooms[k].members ==> m != s;
          UntouchedStays(l, views, o.lobby, views1, k);
        }
      }
    }
  }

  /** The room that was left: smaller, so not full, and shown to those who remain. */
  lemma LeaverStays(l: Lobby, views: map<Sid, RoomView>, s: Sid, k: int)
    requires Good(l, views) && s in l.players && l.players[s].room == To(k)
    ensures var o := OnDisconnect(l, s); Tidy(o.lobby, k) && ShownRoom(o.lobby, Shown(views, o.effects), k)
  {
    var o := OnDisconnect(l, s);
    LeaveForm(l, s);
    RemoveFacts(l.rooms[k].members, s);
    assert o.lobby.rooms[k] == l.rooms[k].(members := Remove(l.rooms[k].members, s));
    ShownToAll(views, RoomAt(o.lobby, k).members, View(o.lobby, k));
    assert WithinCapacity(l, k) && PlayersOnly(l, k);
  }

  /** Match isolation, eager start and view consistency survive every polite job. */
  lemma StepKeepsGood(l: Lobby, views: map<Sid, RoomView>, job: Job, env: Env)
    requires Good(l, views) && PickOk(l, env) && Polite(l, job)
    ensures var o := Step(l, job, env);
            o.Done? ==> Good(o.lobby, Shown(views, o.effects)) && ViewsAreTrue(o.lobby, Shown(views, o.effects))
  {
    StepStaysGood(l, views, job, env);
    var o := Step(l, job, env);
    if o.Done? {
      UpToDateIsTrue(o.lobby, Shown(views, o.effects));
    }
  }

  lemma StepStaysGood(l: Lobby, views: map<Sid, RoomView>, job: Job, env: Env)
    requires Good(l, views) && PickOk(l, env) && Polite(l, job)
    ensures var o := Step(l, job, env); o.Done? ==> Good(o.lobby, Shown(views, o.effects))
  {
    match job
    case Connect(s) => ConnectStays(l, views, s);
    case Disconnect(s) => DisconnectStays(l, views, s);
    case Deliver(s, packet) =>
      if s in l.players {
        var p := l.players[s];
        var o := OnPacket(l, s, packet, env);
        match GetHandler(p.state, packet.id)
        case NoHandler =>
        case Login => OutsiderStays(l, views, s, p.(name := if packet.body == [] then p.name else packet.body, state := LoggedIn));
        case EnterRoomHandler => EnterRoomStays(l, views, s, packet);
        case ChatHandler => ShownNothing(views, o.effects);
        case Hello =>
          ShownNothing(views, o.effects);
          OutsiderStays(l, views, s, p.(name := if p.name == [] then DefaultName(p.id) else p.name, state := LoggedIn));
        case JoinRoom => JoinRoomStays(l, views, s, packet.body, env);
        case Ready => ReadyStays(l, views, s, packet.body);
      }
  }

  lemma {:induction false} OthersFacts(ms: seq<Sid>, s: Sid)
    ensures forall m :: m in Others(ms, s) <==> m in ms && m != s
  {
    if ms == [] {
    } else {
      OthersFacts(ms[1..], s);
      assert ms == [ms[0]] + ms[1..];
    }
  }

  lemma ChatStaysOutside(l: Lobby, s: Sid, body: seq<byte>)
    requires Core(l) && s in l.players && l.players[s].state == InRoom && PlayersOnly(l, l.players[s].room.key)
    ensures NoChatToPlaying(l, OnChat(l, s, body).effects)
  {
    var k := l.players[s].room.key;
    OthersFacts(l.rooms[k].members, s);
    assert !RoomAt(l, k).started;
    assert forall m :: m in l.rooms[k].members ==> l.players[m].room == To(k) && l.players[m].state != InGame;
    var fx := OnChat(l, s, body).effects;
    assert forall i :: 0 <= i < |fx| ==> fx[i].to in Others(l.rooms[k].members, s);
  }

  ghost predicate ChatFree(fx: seq<Effect>) {
    forall i :: 0 <= i < |fx| ==> fx[i].Close? || !fx[i].msg.Chat?
  }

  lemma JoinIsChatFree(l: Lobby, s: Sid, body: seq<byte>, pick: RoomPtr)
    ensures var o := OnJoinRoom(l, s, body, pick); o.Done? ==> ChatFree(o.effects)
  {
  }

  lemma ReadyIsChatFree(l: Lobby, s: Sid, body: seq<byte>)
    ensures ChatFree(OnReady(l, s, body).effects)
  {
  }

  lemma PacketChat(l: Lobby, s: Sid, packet: Packet, env: Env)
    requires Core(l) && Separated(l) && s in l.players
    ensures var o := OnPacket(l, s, packet, env); o.Done? ==> NoChatToPlaying(l, o.effects) && NoChatToPlaying(o.lobby, o.effects)
  {
    var p := l.players[s];
    match GetHandler(p.state, packet.id)
    case NoHandler =>
    case Login =>
    case EnterRoomHandler =>
    case ChatHandler =>
      assert Tidy(l, p.room.key);
      ChatStaysOutside(l, s, packet.body);
    case Hello =>
    case JoinRoom => JoinIsChatFree(l, s, packet.body, env.pick);
    case Ready => ReadyIsChatFree(l, s, packet.body);
  }

  /** No SC_CHAT goes to a player in a match, as the lobby was and as it is. */
  lemma NoChatReachesAMatch(l: Lobby, job: Job, env: Env)
    requires Core(l) && Separated(l)
    ensures var o := Step(l, job, env); o.Done? ==> NoChatToPlaying(l, o.effects) && NoChatToPlaying(o.lobby, o.effects)
  {
    if job.Deliver? && job.s in l.players {
      PacketChat(l, job.s, job.packet, env);
    }
  }
}
