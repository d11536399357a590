/** Where the hypotheses of the lobby theorems are needed: what a CS_ENTER_ROOM can break, exactly when,
    and runs that show it; and a run in which a match starts. */
module LobbyLimits {
  import opened Bytes
  import opened Framing
  import opened Protocol
  import opened Lobby
  import opened LobbyInvariant
  import opened LobbySeparation
  import opened LobbyTheorems

  ghost predicate Isolated(l: Lobby) {
    forall k :: k in l.rooms ==> WithinCapacity(l, k) && PlayersOnly(l, k)
  }

  /** The room without the player who leaves it, if it is the player's. */
  function Vacated(r: Room, p: Player, s: Sid, k: int): Room {
    if p.room == To(k) then r.(members := Remove(r.members, s)) else r
  }

  lemma LeaveRooms(l: Lobby, s: Sid)
    requires Linked(l) && s in l.players
    ensures var left := LeaveCurrent(l, s);
            && Linked(left) && s in left.players && left.players[s].room.Null?
            && left.players == l.players[s := l.players[s].(room := Null)]
            && (forall r :: (r in left.rooms <==> r in l.rooms) && RoomAt(left, r) == Vacated(RoomAt(l, r), l.players[s], s, r))
  {
    LeaveForm(l, s);
    LeaveLinked(l, s);
  }

  lemma JoinRooms(l: Lobby, s: Sid, k: int)
    requires Linked(l) && s in l.players && l.players[s].room.Null?
    ensures var l1 := Join(GetOrCreateRoom(l, k), s, k);
            && l1.players == l.players[s := l.players[s].(room := To(k))]
            && RoomAt(l1, k) == RoomAt(l, k).(members := RoomAt(l, k).members + [s])
            && k in l1.rooms
            && (forall r :: r != k ==> (r in l1.rooms <==> r in l.rooms) && RoomAt(l1, r) == RoomAt(l, r))
  {
    var ready := GetOrCreateRoom(l, k);
    assert Linked(ready);
    JoinForm(ready, s, k);
  }

  lemma EnterRoomFormOf(l: Lobby, s: Sid, k: int)
    requires Linked(l) && s in l.players
    ensures var l1 := EnterRoom(l, s, k);
            var p := l.players[s];
            var base := Vacated(RoomAt(l, k), p, s, k);
            && l1.players == l.players[s := p.(room := To(k))]
            && RoomAt(l1, k) == base.(members := base.members + [s])
            && k in l1.rooms
            && (forall r :: r != k ==> (r in l1.rooms <==> r in l.rooms) && RoomAt(l1, r) == Vacated(RoomAt(l, r), p, s, r))
  {
    LeaveRooms(l, s);
    JoinRooms(LeaveCurrent(l, s), s, k);
  }

  lemma EnterForm(l: Lobby, s: Sid, body: seq<byte>)
    requires Linked(l) && s in l.players && l.players[s].name != [] && |body| >= 4
    ensures var l1 := OnEnterRoom(l, s, body).lobby;
            var p := l.players[s];
            var k := ReadI32(body, 0);
            var base := Vacated(RoomAt(l, k), p, s, k);
            && l1.players == l.players[s := p.(room := To(k), state := InRoom)]
            && RoomAt(l1, k) == base.(members := base.members + [s])
            && k in l1.rooms
            && (forall r :: r != k ==> (r in l1.rooms <==> r in l.rooms) && RoomAt(l1, r) == Vacated(RoomAt(l, r), p, s, r))
  {
    EnterRoomFormOf(l, s, ReadI32(body, 0));
  }

  /** The room named keeps to its rules exactly unless it is a game room the player is not in that is
      started or full. */
  lemma NamedRoomIff(l: Lobby, s: Sid, body: seq<byte>)
    requires Core(l) && Isolated(l) && s in l.players && l.players[s].state in {LoggedIn, InRoom}
    requires l.players[s].name != [] && |body| >= 4
    ensures var l1 := OnEnterRoom(l, s, body).lobby;
            var k := ReadI32(body, 0);
            var was := RoomAt(l, k);
            (WithinCapacity(l1, k) && PlayersOnly(l1, k)) <==>
            !(was.IsGame() && s !in was.members && (was.started || was.IsFull()))
  {
    EnterForm(l, s, body);
    var l1 := OnEnterRoom(l, s, body).lobby;
    var k := ReadI32(body, 0);
    var was := RoomAt(l, k);
    if k in l.rooms {
      RemoveFacts(was.members, s);
    }
    assert s in RoomAt(l1, k).members && Get(l1, s).state == InRoom;
  }

  /** Match isolation under a CS_ENTER_ROOM, exactly. */
  lemma EnterRoomIsolatesIff(l: Lobby, s: Sid, body: seq<byte>)
    requires Core(l) && Isolated(l) && s in l.players && l.players[s].state in {LoggedIn, InRoom}
    requires l.players[s].name != [] && |body| >= 4
    ensures var was := RoomAt(l, ReadI32(body, 0));
            Isolated(OnEnterRoom(l, s, body).lobby) <==>
            !(was.IsGame() && s !in was.members && (was.started || was.IsFull()))
  {
    EnterForm(l, s, body);
    NamedRoomIff(l, s, body);
    var l1 := OnEnterRoom(l, s, body).lobby;
    var k := ReadI32(body, 0);
    forall r | r in l1.rooms && r != k
      ensures WithinCapacity(l1, r) && PlayersOnly(l1, r)
    {
      RemoveFacts(l.rooms[r].members, s);
      assert WithinCapacity(l, r) && PlayersOnly(l, r);
    }
  }

  // ---- views and eager start under a CS_ENTER_ROOM, exactly ---------------------------------------

  /** A player who may enter a room and names one. */
  ghost predicate MayEnter(l: Lobby, s: Sid, body: seq<byte>) {
    s in l.players && l.players[s].state in {LoggedIn, InRoom} && l.players[s].name != [] && |body| >= 4
  }

  /** Nobody is left behind in the game room the player comes from. */
  ghost predicate LeavesNobody(l: Lobby, s: Sid, k: int) {
    var p := Get(l, s);
    p.room.To? && p.room.key != k && RoomAt(l, p.room.key).IsGame() ==> RoomAt(l, p.room.key).members == [s]
  }

  /** The game room entered looks to everyone in it as they were last shown it: the player was its last
      member, or comes alone and was last shown just that. */
  ghost predicate ComesUnseen(l: Lobby, views: map<Sid, RoomView>, s: Sid, k: int) {
    var was := RoomAt(l, k);
    was.IsGame() ==>
      if s in was.members then was.members[|was.members| - 1] == s
      else was.members == [] && s in views && views[s] == RoomView(was.id, was.capacity, [EntryOf(l, s)])
  }

  /** No room that is due has been left unstarted. */
  ghost predicate NoneDue(l: Lobby) {
    forall k :: k in l.rooms ==> !Due(l, k)
  }

  /** The player fills the room with its ready flag still up. */
  ghost predicate FillsReady(l: Lobby, s: Sid, k: int) {
    var was := RoomAt(l, k);
    && was.IsGame() && !was.started && s !in was.members && |was.members| + 1 == was.capacity
    && Get(l, s).ready && AllReady(l, was.members)
  }

  /** Leaving and coming back puts a member last. */
  lemma {:induction false} RemoveAndAppend(ms: seq<Sid>, s: Sid)
    requires NoDup(ms) && s in ms
    ensures Remove(ms, s) + [s] == ms <==> ms[|ms| - 1] == s
    ensures Remove(ms, s) == [] <==> ms == [s]
  {
    if ms[0] == s {
      if |ms| > 1 {
        assert (Remove(ms, s) + [s])[0] == ms[1] != ms[0];
      }
    } else {
      RemoveAndAppend(ms[1..], s);
      assert ms == [ms[0]] + ms[1..];
      assert Remove(ms, s) + [s] == [ms[0]] + (Remove(ms[1..], s) + [s]);
      assert Remove(ms[1..], s) + [s] == (Remove(ms, s) + [s])[1..];
    }
  }

  /** Two lists of a room's players look the same only if they are the same: ids are distinct. */
  lemma SameEntries(l: Lobby, a: seq<Sid>, b: seq<Sid>)
    requires Ids(l) && |a| == |b|
    requires forall m :: m in a || m in b ==> m in l.players
    requires forall i :: 0 <= i < |a| ==> EntryOf(l, a[i]) == EntryOf(l, b[i])
    ensures a == b
  {
    forall i | 0 <= i < |a|
      ensures a[i] == b[i]
    {
      assert a[i] in a && b[i] in b;
      assert Get(l, a[i]).id == Get(l, b[i]).id;
    }
  }

  /** The same number of members: the room looks the same exactly if they are the same in the same order. */
  lemma ReorderedShownIff(l: Lobby, l1: Lobby, k: int, ms1: seq<Sid>)
    requires Core(l) && k in l.rooms && |ms1| == |l.rooms[k].members| && forall m :: m in ms1 ==> m in l.players
    requires RoomAt(l1, k) == l.rooms[k].(members := ms1) && forall m :: EntryOf(l1, m) == EntryOf(l, m)
    ensures View(l1, k) == View(l, k) <==> ms1 == l.rooms[k].members
  {
    var ms := l.rooms[k].members;
    assert forall i :: 0 <= i < |ms| ==> View(l1, k).entries[i] == EntryOf(l, ms1[i]) && View(l, k).entries[i] == EntryOf(l, ms[i]);
    if View(l1, k).entries == View(l, k).entries {
      SameEntries(l, ms1, ms);
    }
  }

  /** The player ends last in the room named; nobody's entry changes. */
  lemma EnteredForm(l: Lobby, s: Sid, body: seq<byte>)
    requires Core(l) && MayEnter(l, s, body)
    ensures var l1 := OnEnterRoom(l, s, body).lobby;
            var k := ReadI32(body, 0);
            && RoomAt(l1, k) == RoomAt(l, k).(members := Remove(RoomAt(l, k).members, s) + [s])
            && k in l1.rooms
            && (forall m :: EntryOf(l1, m) == EntryOf(l, m))
  {
    EnterForm(l, s, body);
    var ms := RoomAt(l, ReadI32(body, 0)).members;
    RemoveAbsent(ms, s);
    assert l.players[s].room == To(ReadI32(body, 0)) <==> s in ms;
  }

  lemma {:induction false} RemoveAbsent(ms: seq<Sid>, s: Sid)
    ensures s !in ms ==> Remove(ms, s) == ms
  {
    if ms != [] && s !in ms {
      RemoveAbsent(ms[1..], s);
    }
  }

  lemma LeftRoomShownIff(l: Lobby, views: map<Sid, RoomView>, s: Sid, body: seq<byte>)
    requires Good(l, views) && MayEnter(l, s, body)
    requires l.players[s].room.To? && l.players[s].room.key != ReadI32(body, 0)
    ensures var r := l.players[s].room.key;
            ShownRoom(OnEnterRoom(l, s, body).lobby, views, r) <==> (RoomAt(l, r).IsGame() ==> RoomAt(l, r).members == [s])
  {
    EnterForm(l, s, body);
    var r := l.players[s].room.key;
    var l1 := OnEnterRoom(l, s, body).lobby;
    var ms := l.rooms[r].members;
    RemoveFacts(ms, s);
    RemoveAndAppend(ms, s);
    if RoomAt(l, r).IsGame() && ms != [s] {
      var left := Remove(ms, s);
      assert left[0] in left && left[0] in ms;
      assert ShownRoom(l, views, r);
      assert |View(l1, r).entries| < |View(l, r).entries|;
    }
  }

  lemma ReenteredRoomShownIff(l: Lobby, views: map<Sid, RoomView>, l1: Lobby, s: Sid, k: int)
    requires Good(l, views) && k in l.rooms && l.rooms[k].IsGame() && s in l.rooms[k].members
    requires RoomAt(l1, k) == l.rooms[k].(members := Remove(l.rooms[k].members, s) + [s])
    requires forall m :: EntryOf(l1, m) == EntryOf(l, m)
    ensures ShownRoom(l1, views, k) <==> l.rooms[k].members[|l.rooms[k].members| - 1] == s
  {
    var ms := l.rooms[k].members;
    RemoveFacts(ms, s);
    RemoveAndAppend(ms, s);
    ReorderedShownIff(l, l1, k, Remove(ms, s) + [s]);
    assert s in RoomAt(l1, k).members && ShownRoom(l, views, k);
  }

  lemma NewlyEnteredRoomShownIff(l: Lobby, views: map<Sid, RoomView>, s: Sid, body: seq<byte>)
    requires Good(l, views) && MayEnter(l, s, body)
    requires RoomAt(l, ReadI32(body, 0)).IsGame() && s !in RoomAt(l, ReadI32(body, 0)).members
    ensures var k := ReadI32(body, 0);
            ShownRoom(OnEnterRoom(l, s, body).lobby, views, k) <==> ComesUnseen(l, views, s, k)
  {
    EnteredForm(l, s, body);
    var k := ReadI32(body, 0);
    var l1 := OnEnterRoom(l, s, body).lobby;
    var ms := RoomAt(l, k).members;
    RemoveAbsent(ms, s);
    assert RoomAt(l1, k).members == ms + [s];
    if ms == [] {
      assert View(l1, k).entries == [EntryOf(l, s)];
    } else {
      assert ms[0] in ms && ms[0] in ms + [s];
      assert ShownRoom(l, views, k);
      assert |View(l1, k).entries| == |View(l, k).entries| + 1;
    }
  }

  lemma OtherRoomStaysShown(l: Lobby, views: map<Sid, RoomView>, s: Sid, body: seq<byte>, r: int)
    requires Good(l, views) && MayEnter(l, s, body) && r in l.rooms
    requires r != ReadI32(body, 0) && l.players[s].room != To(r)
    ensures ShownRoom(OnEnterRoom(l, s, body).lobby, views, r)
  {
    EnterForm(l, s, body);
    assert s !in l.rooms[r].members && Tidy(l, r) && ShownRoom(l, views, r);
    UntouchedStays(l, views, OnEnterRoom(l, s, body).lobby, views, r);
  }

  /** View consistency under a CS_ENTER_ROOM, exactly: nobody may be left behind in a game room, and a game
      room entered must look as it did. */
  lemma EnterRoomShowsIff(l: Lobby, views: map<Sid, RoomView>, s: Sid, body: seq<byte>)
    requires Good(l, views) && MayEnter(l, s, body)
    ensures var k := ReadI32(body, 0);
            UpToDate(OnEnterRoom(l, s, body).lobby, views) <==> LeavesNobody(l, s, k) && ComesUnseen(l, views, s, k)
  {
    EnterForm(l, s, body);
    var k := ReadI32(body, 0);
    var p := l.players[s];
    var l1 := OnEnterRoom(l, s, body).lobby;
    assert ShownRoom(l1, views, k) <==> ComesUnseen(l, views, s, k) by {
      if RoomAt(l, k).IsGame() {
        if s in RoomAt(l, k).members {
          EnteredForm(l, s, body);
          ReenteredRoomShownIff(l, views, l1, s, k);
        } else {
          NewlyEnteredRoomShownIff(l, views, s, body);
        }
      }
    }
    if p.room.To? && p.room.key != k {
      LeftRoomShownIff(l, views, s, body);
      assert p.room.key in l1.rooms;
    }
    forall r | r in l1.rooms && r != k && p.room != To(r)
      ensures ShownRoom(l1, views, r)
    {
      OtherRoomStaysShown(l, views, s, body, r);
    }
  }

  lemma NamedRoomDueIff(l: Lobby, s: Sid, body: seq<byte>)
    requires Core(l) && Separated(l) && MayEnter(l, s, body)
    ensures var k := ReadI32(body, 0); Due(OnEnterRoom(l, s, body).lobby, k) <==> FillsReady(l, s, k)
  {
    EnteredForm(l, s, body);
    var k := ReadI32(body, 0);
    var l1 := OnEnterRoom(l, s, body).lobby;
    var ms := RoomAt(l, k).members;
    SameFlags(l, l1, Remove(ms, s) + [s]);
    if s in ms {
      RemoveFacts(ms, s);
      assert Tidy(l, k);
      SameReady(l, ms, Remove(ms, s) + [s]);
    } else {
      RemoveAbsent(ms, s);
      OneMoreReady(l, ms, s);
    }
  }

  lemma SameFlags(l: Lobby, l1: Lobby, ms: seq<Sid>)
    requires forall m :: EntryOf(l1, m) == EntryOf(l, m)
    ensures AllReady(l1, ms) == AllReady(l, ms)
  {
    assert forall m :: Get(l1, m).ready == EntryOf(l1, m).ready;
  }

  lemma OneMoreReady(l: Lobby, ms: seq<Sid>, s: Sid)
    ensures AllReady(l, ms + [s]) <==> AllReady(l, ms) && Get(l, s).ready
  {
    assert (ms + [s])[|ms|] == s && forall i :: 0 <= i < |ms| ==> (ms + [s])[i] == ms[i];
  }

  /** Whether all are ready does not depend on their order. */
  lemma SameReady(l: Lobby, a: seq<Sid>, b: seq<Sid>)
    requires forall m :: m in a <==> m in b
    ensures AllReady(l, a) == AllReady(l, b)
  {
    assert AllReady(l, a) <==> forall m :: m in a ==> Get(l, m).ready;
    assert AllReady(l, b) <==> forall m :: m in b ==> Get(l, m).ready;
  }

  lemma OtherRoomIsNotDue(l: Lobby, s: Sid, body: seq<byte>, r: int)
    requires Core(l) && Separated(l) && MayEnter(l, s, body) && r in l.rooms && r != ReadI32(body, 0)
    ensures !Due(OnEnterRoom(l, s, body).lobby, r)
  {
    EnterForm(l, s, body);
    var l1 := OnEnterRoom(l, s, body).lobby;
    var ms := l.rooms[r].members;
    assert Tidy(l, r);
    if l.players[s].room == To(r) {
      RemoveFacts(ms, s);
    } else {
      assert s !in ms;
      assert AllReady(l1, ms) == AllReady(l, ms);
    }
  }

  /** Eager start under a CS_ENTER_ROOM, exactly: it fails when the player fills a waiting room whose members
      are all ready and is ready itself, since only a join takes the flag down. */
  lemma EnterRoomStartsIff(l: Lobby, s: Sid, body: seq<byte>)
    requires Core(l) && Separated(l) && MayEnter(l, s, body)
    ensures NoneDue(OnEnterRoom(l, s, body).lobby) <==> !FillsReady(l, s, ReadI32(body, 0))
  {
    EnterForm(l, s, body);
    NamedRoomDueIff(l, s, body);
    var l1 := OnEnterRoom(l, s, body).lobby;
    forall r | r in l1.rooms && r != ReadI32(body, 0)
      ensures !Due(l1, r)
    {
      OtherRoomIsNotDue(l, s, body, r);
    }
  }

  /** What a CS_ENTER_ROOM that is acted on may do without harm. */
  ghost predicate EntersHarmlessly(l: Lobby, views: map<Sid, RoomView>, s: Sid, k: int) {
    var was := RoomAt(l, k);
    && LeavesNobody(l, s, k) && ComesUnseen(l, views, s, k) && !FillsReady(l, s, k)
    && !(was.IsGame() && s !in was.members && (was.started || was.IsFull()))
  }

  ghost predicate IsEntering(l: Lobby, job: Job) {
    job.Deliver? && job.packet.id == CS_ENTER_ROOM && MayEnter(l, job.s, job.packet.body)
  }

  ghost predicate Harmless(l: Lobby, views: map<Sid, RoomView>, job: Job) {
    IsEntering(l, job) ==> EntersHarmlessly(l, views, job.s, ReadI32(job.packet.body, 0))
  }

  lemma EnterRoomKeepsGoodIff(l: Lobby, views: map<Sid, RoomView>, s: Sid, body: seq<byte>)
    requires Good(l, views) && MayEnter(l, s, body)
    ensures Good(OnEnterRoom(l, s, body).lobby, views) <==> EntersHarmlessly(l, views, s, ReadI32(body, 0))
  {
    var l1 := OnEnterRoom(l, s, body).lobby;
    assert Isolated(l) by { assert forall k :: k in l.rooms ==> Tidy(l, k); }
    EnterRoomKeeps(l, s, body);
    EnterRoomIsolatesIff(l, s, body);
    EnterRoomShowsIff(l, views, s, body);
    EnterRoomStartsIff(l, s, body);
    SeparatedParts(l1);
  }

  lemma SeparatedParts(l: Lobby)
    ensures Separated(l) <==> Isolated(l) && NoneDue(l)
  {
    assert forall k :: Tidy(l, k) <==> WithinCapacity(l, k) && PlayersOnly(l, k) && !Due(l, k);
  }

  lemma EnterWithoutEffect(l: Lobby, s: Sid, body: seq<byte>)
    requires Core(l) && s in l.players && l.players[s].state in {LoggedIn, InRoom} && !MayEnter(l, s, body)
    ensures OnEnterRoom(l, s, body) == Done(l, [])
  {
    assert l.players[s := l.players[s]] == l.players;
  }

  lemma EnterPacketKeepsGoodIff(l: Lobby, views: map<Sid, RoomView>, s: Sid, packet: Packet, env: Env)
    requires Good(l, views) && s in l.players && packet.id == CS_ENTER_ROOM
    ensures var o := OnPacket(l, s, packet, env);
            o.Done? && o.effects == [] && (Good(o.lobby, views) <==> Harmless(l, views, Deliver(s, packet)))
  {
    if l.players[s].state in {LoggedIn, InRoom} {
      if MayEnter(l, s, packet.body) {
        EnterRoomKeepsGoodIff(l, views, s, packet.body);
      } else {
        EnterWithoutEffect(l, s, packet.body);
      }
    }
  }

  /** The exact condition, for every job of every client: capacity, isolation, eager start and consistent views
      survive it exactly unless it is a CS_ENTER_ROOM that does harm. */
  lemma StepKeepsGoodIff(l: Lobby, views: map<Sid, RoomView>, job: Job, env: Env)
    requires Good(l, views) && PickOk(l, env) && Step(l, job, env).Done?
    ensures var o := Step(l, job, env); Good(o.lobby, Shown(views, o.effects)) <==> Harmless(l, views, job)
  {
    if job.Deliver? && job.packet.id == CS_ENTER_ROOM && job.s in l.players {
      EnterPacketKeepsGoodIff(l, views, job.s, job.packet, env);
    } else {
      StepKeepsGood(l, views, job, env);
    }
  }

  /** The lobby after the first i jobs is isolated, eagerly started and shown as it is. */
  ghost predicate GoodAt(jobs: seq<Job>, envs: seq<Env>, i: nat)
    requires |jobs| == |envs| && i <= |jobs|
  {
    var r := After(jobs[..i], envs[..i]);
    r.Running? ==> Good(r.lobby, r.views)
  }

  ghost predicate HarmlessAt(jobs: seq<Job>, envs: seq<Env>, i: nat)
    requires |jobs| == |envs| && i < |jobs|
  {
    var r := After(jobs[..i], envs[..i]);
    r.Running? && Step(r.lobby, jobs[i], envs[i]).Done? ==> Harmless(r.lobby, r.views, jobs[i])
  }

  lemma GoodNextIff(jobs: seq<Job>, envs: seq<Env>, i: nat)
    requires |jobs| == |envs| && PicksOk(jobs, envs) && i < |jobs| && GoodAt(jobs, envs, i)
    ensures GoodAt(jobs, envs, i + 1) <==> HarmlessAt(jobs, envs, i)
  {
    assert jobs[..i + 1][..i] == jobs[..i] && envs[..i + 1][..i] == envs[..i];
    var r := After(jobs[..i], envs[..i]);
    if r.Running? && Step(r.lobby, jobs[i], envs[i]).Done? {
      StepKeepsGoodIff(r.lobby, r.views, jobs[i], envs[i]);
    }
  }

  lemma {:induction false} HarmlessRunIsGood(jobs: seq<Job>, envs: seq<Env>, n: nat)
    requires |jobs| == |envs| && PicksOk(jobs, envs) && n <= |jobs|
    requires forall i :: 0 <= i < n ==> HarmlessAt(jobs, envs, i)
    ensures GoodAt(jobs, envs, n)
  {
    if n == 0 {
      InitialInv();
    } else {
      HarmlessRunIsGood(jobs, envs, n - 1);
      GoodNextIff(jobs, envs, n - 1);
    }
  }

  /** Over whole runs: every lobby of a run is isolated, eagerly started and shown as it is exactly if no job of
      the run did harm. */
  lemma RunStaysGoodIff(jobs: seq<Job>, envs: seq<Env>)
    requires |jobs| == |envs| && PicksOk(jobs, envs)
    ensures (forall i :: 0 <= i <= |jobs| ==> GoodAt(jobs, envs, i)) <==> (forall i :: 0 <= i < |jobs| ==> HarmlessAt(jobs, envs, i))
  {
    if forall i :: 0 <= i < |jobs| ==> HarmlessAt(jobs, envs, i) {
      forall n | 0 <= n <= |jobs| ensures GoodAt(jobs, envs, n) { HarmlessRunIsGood(jobs, envs, n); }
    }
    if forall i :: 0 <= i <= |jobs| ==> GoodAt(jobs, envs, i) {
      forall n | 0 <= n < |jobs| ensures HarmlessAt(jobs, envs, n) {
        assert GoodAt(jobs, envs, n) && GoodAt(jobs, envs, n + 1);
        GoodNextIff(jobs, envs, n);
      }
    }
  }

  // ---- runs ---------------------------------------------------------------------------------------

  /** A step of a run, views included. */
  ghost predicate Leads(l: Lobby, views: map<Sid, RoomView>, job: Job, pick: RoomPtr, l1: Lobby, views1: map<Sid, RoomView>) {
    var env := Env(pick, 0);
    PickOk(l, env) && Step(l, job, env).Done? && Step(l, job, env).lobby == l1 && Shown(views, Step(l, job, env).effects) == views1
  }

  function Login(s: Sid): Job { Deliver(s, Packet(CS_LOGIN, [65])) }
  function Enter(s: Sid, k: nat): Job { Deliver(s, Packet(CS_ENTER_ROOM, U32(k))) }
  function JoinGame(s: Sid, k: nat): Job { Deliver(s, Packet(CS_JOIN_ROOM, U32(k))) }

  function Fresh(id: nat): Player { Player(id, [], Start, false, Null) }
  function Named(id: nat): Player { Player(id, [65], LoggedIn, false, Null) }
  function Inside(id: nat, k: int): Player { Player(id, [65], InRoom, false, To(k)) }

  lemma ReadBack(k: nat)
    requires k < 0x8000_0000
    ensures ReadI32(U32(k), 0) == k
  {
    assert U32(k)[0..4] == U32(k);
    ReadI32OfU32(k, U32(k), 0);
  }

  const LOBBY := map[1 := NewRoom(1)]
  const ONE_CONNECTED := Lobby(map[1 := Fresh(1)], LOBBY, 2, 100, 1)
  const ONE_NAMED := Lobby(map[1 := Named(1)], LOBBY, 2, 100, 1)

  lemma FirstTwoSteps()
    ensures Leads(INITIAL, map[], Connect(1), Null, ONE_CONNECTED, map[])
    ensures Leads(ONE_CONNECTED, map[], Login(1), Null, ONE_NAMED, map[])
  {
  }

  /** A named player outside every room enters room k. */
  lemma EnterFromOutside(l: Lobby, s: Sid, k: nat, views: map<Sid, RoomView>, pick: RoomPtr, l1: Lobby)
    requires k < 0x8000_0000 && s in l.players && l.players[s].name != [] && l.players[s].state == LoggedIn && l.players[s].room.Null?
    requires s !in RoomAt(l, k).members && PickOk(l, Env(pick, 0))
    requires l1 == l.(players := l.players[s := l.players[s].(room := To(k), state := InRoom)],
                      rooms := l.rooms[k := RoomAt(l, k).(members := RoomAt(l, k).members + [s])])
    ensures Leads(l, views, Enter(s, k), pick, l1, views)
  {
    ReadBack(k);
    var ready := GetOrCreateRoom(l, k);
    assert RoomAt(ready, k) == RoomAt(l, k);
    assert ready.rooms[k := l1.rooms[k]] == l1.rooms;
  }

  const IN_100 := Lobby(map[1 := Inside(1, 100)], LOBBY[100 := Room(100, [1], 0, false)], 2, 100, 1)
  const IN_100_AND_FRESH := Lobby(map[1 := Inside(1, 100), 2 := Fresh(2)], LOBBY[100 := Room(100, [1], 0, false)], 3, 100, 1)
  const IN_100_AND_NAMED := Lobby(map[1 := Inside(1, 100), 2 := Named(2)], LOBBY[100 := Room(100, [1], 0, false)], 3, 100, 1)

  /** A chat room is named 100 before the first automatic assignment: that assignment dangles. */
  lemma ImmodestRunDangles()
    ensures Leads(INITIAL, map[], Connect(1), Null, ONE_CONNECTED, map[])
    ensures Leads(ONE_CONNECTED, map[], Login(1), Null, ONE_NAMED, map[])
    ensures Leads(ONE_NAMED, map[], Enter(1, 100), Null, IN_100, map[])
    ensures Leads(IN_100, map[], Connect(2), Null, IN_100_AND_FRESH, map[])
    ensures Leads(IN_100_AND_FRESH, map[], Login(2), Null, IN_100_AND_NAMED, map[])
    ensures PickOk(IN_100_AND_NAMED, Env(Null, 0)) && Step(IN_100_AND_NAMED, JoinGame(2, 0), Env(Null, 0)).Dangling?
  {
    FirstTwoSteps();
    ReadBack(0);
    assert NewRoom(100) == Room(100, [], 0, false) && [] + [1] == [1];
    assert IN_100.players == ONE_NAMED.players[1 := Inside(1, 100)];
    EnterFromOutside(ONE_NAMED, 1, 100, map[], Null, IN_100);
  }

  const FIVE := Room(5, [1], 2, false)
  const FIVE_SHOWN := map[1 := RoomView(5, 2, [Entry(1, false, [65])])]
  const IN_FIVE := Lobby(map[1 := Inside(1, 5)], LOBBY[5 := FIVE], 2, 100, 1)
  const FIVE_AND_FRESH := Lobby(map[1 := Inside(1, 5), 2 := Fresh(2)], LOBBY[5 := FIVE], 3, 100, 1)
  const FIVE_AND_NAMED := Lobby(map[1 := Inside(1, 5), 2 := Named(2)], LOBBY[5 := FIVE], 3, 100, 1)
  const BOTH := Lobby(map[1 := Inside(1, 5), 2 := Inside(2, 5)], LOBBY[5 := Room(5, [1, 2], 2, false)], 3, 100, 1)
  const BOTH_AND_FRESH := Lobby(map[1 := Inside(1, 5), 2 := Inside(2, 5), 3 := Fresh(3)], LOBBY[5 := Room(5, [1, 2], 2, false)], 4, 100, 1)
  const BOTH_AND_NAMED := Lobby(map[1 := Inside(1, 5), 2 := Inside(2, 5), 3 := Named(3)], LOBBY[5 := Room(5, [1, 2], 2, false)], 4, 100, 1)
  const THREE := Lobby(map[1 := Inside(1, 5), 2 := Inside(2, 5), 3 := Inside(3, 5)], LOBBY[5 := Room(5, [1, 2, 3], 2, false)], 4, 100, 1)

  lemma JoinFive()
    ensures Leads(ONE_NAMED, map[], JoinGame(1, 5), Null, IN_FIVE, FIVE_SHOWN)
  {
    ReadBack(5);
    var made := SetRoom(ONE_NAMED, 5, NewGameRoom(5));
    assert AcquireGameRoom(ONE_NAMED, 5, Null) == Acquired(made, 5);
    assert NewGameRoom(5) == Room(5, [], 2, false) && [] + [1] == [1];
    assert LeaveCurrent(made, 1) == made;
    assert Seat(made, 1, 5) == IN_FIVE;
    var fx := BroadcastRoomState(IN_FIVE, 5);
    assert View(IN_FIVE, 5).entries == [Entry(1, false, [65])];
    assert fx == [Send(1, RoomState(View(IN_FIVE, 5)))];
    assert fx[..0] == [];
  }

  /** One player in game room 5, another one named. */
  lemma FirstFiveSteps()
    ensures Leads(INITIAL, map[], Connect(1), Null, ONE_CONNECTED, map[])
    ensures Leads(ONE_CONNECTED, map[], Login(1), Null, ONE_NAMED, map[])
    ensures Leads(ONE_NAMED, map[], JoinGame(1, 5), Null, IN_FIVE, FIVE_SHOWN)
    ensures Leads(IN_FIVE, FIVE_SHOWN, Connect(2), To(5), FIVE_AND_FRESH, FIVE_SHOWN)
    ensures Leads(FIVE_AND_FRESH, FIVE_SHOWN, Login(2), To(5), FIVE_AND_NAMED, FIVE_SHOWN)
  {
    FirstTwoSteps();
    JoinFive();
    assert FIVE.IsOpen();
  }

  /** A game room entered by CS_ENTER_ROOM: its member is left with a stale view, and one more makes
      three in a room for two. */
  lemma ImpoliteRunBreaks()
    ensures Leads(INITIAL, map[], Connect(1), Null, ONE_CONNECTED, map[])
    ensures Leads(ONE_CONNECTED, map[], Login(1), Null, ONE_NAMED, map[])
    ensures Leads(ONE_NAMED, map[], JoinGame(1, 5), Null, IN_FIVE, FIVE_SHOWN)
    ensures Leads(IN_FIVE, FIVE_SHOWN, Connect(2), To(5), FIVE_AND_FRESH, FIVE_SHOWN)
    ensures Leads(FIVE_AND_FRESH, FIVE_SHOWN, Login(2), To(5), FIVE_AND_NAMED, FIVE_SHOWN)
    ensures Leads(FIVE_AND_NAMED, FIVE_SHOWN, Enter(2, 5), To(5), BOTH, FIVE_SHOWN)
    ensures !UpToDate(BOTH, FIVE_SHOWN)
    ensures Leads(BOTH, FIVE_SHOWN, Connect(3), Null, BOTH_AND_FRESH, FIVE_SHOWN)
    ensures Leads(BOTH_AND_FRESH, FIVE_SHOWN, Login(3), Null, BOTH_AND_NAMED, FIVE_SHOWN)
    ensures Leads(BOTH_AND_NAMED, FIVE_SHOWN, Enter(3, 5), Null, THREE, FIVE_SHOWN)
    ensures !Isolated(THREE)
  {
    FirstFiveSteps();
    assert FIVE.IsOpen() && [1] + [2] == [1, 2] && [1, 2] + [3] == [1, 2, 3];
    EnterFromOutside(FIVE_AND_NAMED, 2, 5, FIVE_SHOWN, To(5), BOTH);
    assert |View(BOTH, 5).entries| == 2 && 1 in RoomAt(BOTH, 5).members;
    assert !ShownRoom(BOTH, FIVE_SHOWN, 5);
    EnterFromOutside(BOTH_AND_NAMED, 3, 5, FIVE_SHOWN, Null, THREE);
    assert !WithinCapacity(THREE, 5);
  }

  // ---- a match that starts ------------------------------------------------------------------------

  /** A step of a run, as far as the lobby goes. */
  ghost predicate Goes(l: Lobby, job: Job, pick: RoomPtr, l1: Lobby) {
    PickOk(l, Env(pick, 0)) && Step(l, job, Env(pick, 0)).Done? && Step(l, job, Env(pick, 0)).lobby == l1
  }

  function SayReady(s: Sid): Job { Deliver(s, Packet(CS_READY, [1])) }
  function InMatch(id: nat, k: int): Player { Player(id, [65], InGame, true, To(k)) }

  const PAIR := Room(5, [1, 2], 2, false)
  const ONE_READY := Lobby(map[1 := Inside(1, 5).(ready := true), 2 := Inside(2, 5)], LOBBY[5 := PAIR], 3, 100, 1)
  const BOTH_READY := Lobby(map[1 := Inside(1, 5).(ready := true), 2 := Inside(2, 5).(ready := true)], LOBBY[5 := PAIR], 3, 100, 1)
  const PLAYED := Lobby(map[1 := InMatch(1, 5), 2 := InMatch(2, 5)], LOBBY[5 := PAIR.(started := true)], 3, 100, 2)

  lemma SecondJoins()
    ensures Goes(FIVE_AND_NAMED, JoinGame(2, 5), To(5), BOTH)
  {
    ReadBack(5);
    assert FIVE.IsOpen() && [1] + [2] == [1, 2];
    assert AcquireGameRoom(FIVE_AND_NAMED, 5, To(5)) == Acquired(FIVE_AND_NAMED, 5);
    assert LeaveCurrent(FIVE_AND_NAMED, 2) == FIVE_AND_NAMED;
    assert Seat(FIVE_AND_NAMED, 2, 5) == BOTH;
  }

  lemma FirstIsReady()
    ensures Goes(BOTH, SayReady(1), Null, ONE_READY)
  {
    assert SetPlayer(BOTH, 1, BOTH.players[1].(ready := true)) == ONE_READY;
    assert !Get(ONE_READY, PAIR.members[1]).ready;
  }

  lemma SecondIsReady()
    ensures Goes(ONE_READY, SayReady(2), Null, PLAYED)
  {
    assert SetPlayer(ONE_READY, 2, ONE_READY.players[2].(ready := true)) == BOTH_READY;
    assert Due(BOTH_READY, 5);
    assert AllInGame(BOTH_READY.players, PAIR.members) == PLAYED.players;
    assert Started(BOTH_READY, 5) == PLAYED;
  }

  /** A match does start: two players join a room and say ready. */
  lemma MatchRunStarts()
    ensures Leads(INITIAL, map[], Connect(1), Null, ONE_CONNECTED, map[])
    ensures Leads(ONE_CONNECTED, map[], Login(1), Null, ONE_NAMED, map[])
    ensures Leads(ONE_NAMED, map[], JoinGame(1, 5), Null, IN_FIVE, FIVE_SHOWN)
    ensures Leads(IN_FIVE, FIVE_SHOWN, Connect(2), To(5), FIVE_AND_FRESH, FIVE_SHOWN)
    ensures Leads(FIVE_AND_FRESH, FIVE_SHOWN, Login(2), To(5), FIVE_AND_NAMED, FIVE_SHOWN)
    ensures Goes(FIVE_AND_NAMED, JoinGame(2, 5), To(5), BOTH)
    ensures Goes(BOTH, SayReady(1), Null, ONE_READY)
    ensures Goes(ONE_READY, SayReady(2), Null, PLAYED)
    ensures !IsStarted(ONE_READY, 5) && IsStarted(PLAYED, 5) && PLAYED.nextMatchId == 2
    ensures forall m :: m in PLAYED.rooms[5].members ==> Get(PLAYED, m).state == InGame
  {
    FirstFiveSteps();
    SecondJoins();
    FirstIsReady();
    SecondIsReady();
  }

  // ---- a match that does not start ----------------------------------------------------------------

  const FIVE_READY := Lobby(map[1 := Inside(1, 5).(ready := true)], LOBBY[5 := FIVE], 2, 100, 1)
  const FIVE_READY_AND_FRESH := Lobby(FIVE_READY.players[2 := Fresh(2)], LOBBY[5 := FIVE], 3, 100, 1)
  const FIVE_READY_AND_NAMED := Lobby(FIVE_READY.players[2 := Named(2)], LOBBY[5 := FIVE], 3, 100, 1)
  const SIX := Room(6, [2], 2, false)
  const FIVE_AND_SIX := Lobby(FIVE_READY.players[2 := Inside(2, 6)], LOBBY[5 := FIVE][6 := SIX], 3, 100, 1)
  const APART := Lobby(FIVE_READY.players[2 := Inside(2, 6).(ready := true)], LOBBY[5 := FIVE][6 := SIX], 3, 100, 1)
  const MET := Lobby(FIVE_READY.players[2 := Inside(2, 5).(ready := true)], LOBBY[5 := PAIR][6 := SIX.(members := [])], 3, 100, 1)

  lemma FirstIsReadyAlone()
    ensures Goes(IN_FIVE, SayReady(1), To(5), FIVE_READY)
    ensures Goes(FIVE_READY, Connect(2), To(5), FIVE_READY_AND_FRESH)
    ensures Goes(FIVE_READY_AND_FRESH, Login(2), To(5), FIVE_READY_AND_NAMED)
  {
    assert FIVE.IsOpen() && !Due(FIVE_READY, 5);
    assert SetPlayer(IN_FIVE, 1, IN_FIVE.players[1].(ready := true)) == FIVE_READY;
  }

  lemma SecondIsReadyElsewhere()
    ensures Goes(FIVE_READY_AND_NAMED, JoinGame(2, 6), To(5), FIVE_AND_SIX)
    ensures Goes(FIVE_AND_SIX, SayReady(2), To(5), APART)
  {
    ReadBack(6);
    var l := FIVE_READY_AND_NAMED;
    var made := SetRoom(l, 6, NewGameRoom(6));
    assert AcquireGameRoom(l, 6, To(5)) == Acquired(made, 6);
    assert NewGameRoom(6) == Room(6, [], 2, false) && [] + [2] == [2];
    assert LeaveCurrent(made, 2) == made;
    assert Seat(made, 2, 6) == FIVE_AND_SIX;
    assert FIVE.IsOpen() && !Due(APART, 6);
    assert SetPlayer(FIVE_AND_SIX, 2, FIVE_AND_SIX.players[2].(ready := true)) == APART;
  }

  lemma SecondEntersReady()
    ensures Goes(APART, Enter(2, 5), To(5), MET)
  {
    ReadBack(5);
    assert FIVE.IsOpen() && [1] + [2] == [1, 2];
    assert Remove([2], 2) == [];
    var left := LeaveCurrent(APART, 2);
    assert left.rooms == LOBBY[5 := FIVE][6 := SIX.(members := [])];
    assert GetOrCreateRoom(left, 5) == left;
    assert EnterRoom(APART, 2, 5).rooms == MET.rooms;
    assert OnEnterRoom(APART, 2, U32(5)).lobby.players == MET.players;
  }

  /** A player ready alone in room 6 enters room 5, where another is ready alone: the room is full, everyone in
      it is ready, and no match starts. */
  lemma ImpoliteRunStartsNothing()
    ensures Leads(INITIAL, map[], Connect(1), Null, ONE_CONNECTED, map[])
    ensures Leads(ONE_CONNECTED, map[], Login(1), Null, ONE_NAMED, map[])
    ensures Leads(ONE_NAMED, map[], JoinGame(1, 5), Null, IN_FIVE, FIVE_SHOWN)
    ensures Goes(IN_FIVE, SayReady(1), To(5), FIVE_READY)
    ensures Goes(FIVE_READY, Connect(2), To(5), FIVE_READY_AND_FRESH)
    ensures Goes(FIVE_READY_AND_FRESH, Login(2), To(5), FIVE_READY_AND_NAMED)
    ensures Goes(FIVE_READY_AND_NAMED, JoinGame(2, 6), To(5), FIVE_AND_SIX)
    ensures Goes(FIVE_AND_SIX, SayReady(2), To(5), APART)
    ensures Goes(APART, Enter(2, 5), To(5), MET)
    ensures NoneDue(APART) && FillsReady(APART, 2, 5) && Due(MET, 5) && !IsStarted(MET, 5)
  {
    FirstFiveSteps();
    FirstIsReadyAlone();
    SecondIsReadyElsewhere();
    SecondEntersReady();
  }
}
