/** The lobby: rooms, their members and hosts, and what every service call keeps. */
module Lobbies {
  import opened OrderedMaps

  type PlayerId = string
  /** A room's place in the order of creation; rooms are closed but never deleted. */
  type RoomId = nat

  datatype Status = Waiting | InProgress | Closed
  datatype Member = Member(playerId: PlayerId, ready: bool, joinedAt: int)
  datatype Room = Room(code: string, hostId: PlayerId, maxPlayers: int, status: Status, members: seq<Member>)
  datatype SessionRow = SessionRow(roomId: RoomId, playerId: PlayerId)
  datatype Lobby = Lobby(rooms: seq<Room>, sessions: seq<SessionRow>)

  datatype Failure =
    | InvalidCapacity | AlreadyInARoom | CodeTaken | NoSuchRoom | NotAccepting | RoomFull
    | NotInARoom | AlreadyStarted | NotTheHost | NotAllReady

  datatype Result = Ok(room: RoomId) | Err(why: Failure)

  /** What the environment fixes: the most players a room may hold, and how codes are upper-cased. */
  datatype Rules = Rules(max: int, upper: string -> string)

  const NEW_LOBBY := Lobby([], [])
  const MIN_PLAYERS := 2
  const CODE_RETRIES := 5

  /** The codes drawn for one new room: a first one, and one for each retry. */
  type Codes = codes: seq<string> | |codes| == CODE_RETRIES + 1 witness ["", "", "", "", "", ""]

  predicate Has(members: seq<Member>, p: PlayerId) {
    exists k :: 0 <= k < |members| && members[k].playerId == p
  }

  // ---------- the repository ----------

  /** An open room with the player among its members. */
  function FindByPlayer(rooms: seq<Room>, p: PlayerId): (found: Option<RoomId>)
    ensures found.Some? ==>
              found.value < |rooms| && rooms[found.value].status != Closed && Has(rooms[found.value].members, p)
    ensures found.None? ==> forall i :: 0 <= i < |rooms| && rooms[i].status != Closed ==> !Has(rooms[i].members, p)
  {
    if rooms == [] then None
    else if rooms[|rooms| - 1].status != Closed && Has(rooms[|rooms| - 1].members, p) then Some(|rooms| - 1)
    else FindByPlayer(rooms[..|rooms| - 1], p)
  }

  /** A room with the code, open or closed. */
  function FindByCode(rooms: seq<Room>, code: string): (found: Option<RoomId>)
    ensures found.Some? ==> found.value < |rooms| && rooms[found.value].code == code
    ensures found.None? ==> forall i :: 0 <= i < |rooms| ==> rooms[i].code != code
  {
    if rooms == [] then None
    else if rooms[|rooms| - 1].code == code then Some(|rooms| - 1)
    else FindByCode(rooms[..|rooms| - 1], code)
  }

  function WithoutMember(members: seq<Member>, p: PlayerId): seq<Member> {
    if members == [] then []
    else
      WithoutMember(members[..|members| - 1], p) +
      if members[|members| - 1].playerId == p then [] else [members[|members| - 1]]
  }

  /** The member who joined first. */
  function Earliest(members: seq<Member>): (first: Member)
    requires members != []
    ensures first in members && forall k :: 0 <= k < |members| ==> first.joinedAt <= members[k].joinedAt
  {
    var last := members[|members| - 1];
    if |members| == 1 then last
    else
      var first := Earliest(members[..|members| - 1]);
      if last.joinedAt < first.joinedAt then last else first
  }

  function Readied(m: Member, p: PlayerId, ready: bool): Member {
    if m.playerId == p then m.(ready := ready) else m
  }

  function WithReady(members: seq<Member>, p: PlayerId, ready: bool): seq<Member> {
    seq(|members|, k requires 0 <= k < |members| => Readied(members[k], p, ready))
  }

  function AddMember(l: Lobby, id: RoomId, p: PlayerId, now: int): (Lobby, Result) {
    if id >= |l.rooms| then (l, Err(NoSuchRoom)) else AddTo(l, id, l.rooms[id], p, now)
  }

  function AddTo(l: Lobby, id: RoomId, room: Room, p: PlayerId, now: int): (Lobby, Result)
    requires id < |l.rooms|
  {
    if room.status != Waiting then (l, Err(NotAccepting))
    else if |room.members| >= room.maxPlayers then (l, Err(RoomFull))
    else if Has(room.members, p) then (l, Err(AlreadyInARoom))
    else (l.(rooms := l.rooms[id := room.(members := room.members + [Member(p, false, now)])]), Ok(id))
  }

  function RemoveMember(l: Lobby, id: RoomId, p: PlayerId): (Lobby, Result) {
    if id >= |l.rooms| then (l, Err(NoSuchRoom)) else (l.(rooms := l.rooms[id := Left(l.rooms[id], p)]), Ok(id))
  }

  /** A room once a member has gone: closed when nobody is left, or else led by who joined first. */
  function Left(room: Room, p: PlayerId): Room {
    var rest := WithoutMember(room.members, p);
    if rest == [] then room.(members := rest, status := Closed)
    else room.(members := rest, hostId := if room.hostId == p then Earliest(rest).playerId else room.hostId)
  }

  function ChangeReady(l: Lobby, id: RoomId, p: PlayerId, ready: bool): (Lobby, Result) {
    if id >= |l.rooms| || !Has(l.rooms[id].members, p) then (l, Err(NotInARoom))
    else (l.(rooms := l.rooms[id := l.rooms[id].(members := WithReady(l.rooms[id].members, p, ready))]), Ok(id))
  }

  // ---------- the service ----------

  /** The first of the codes that no room has, or else the last, which is not looked up. */
  function PickCode(rooms: seq<Room>, codes: seq<string>): string
    requires codes != []
  {
    if |codes| == 1 || FindByCode(rooms, codes[0]).None? then codes[0] else PickCode(rooms, codes[1..])
  }

  function CreateRoom(max: int, l: Lobby, host: PlayerId, wanted: Option<int>, codes: Codes, now: int): (Lobby,
      Result) {
    var capacity := if wanted.Some? then wanted.value else max;
    if capacity < MIN_PLAYERS || capacity > max then (l, Err(InvalidCapacity))
    else if FindByPlayer(l.rooms, host).Some? then (l, Err(AlreadyInARoom))
    else
      var code := PickCode(l.rooms, codes);
      if FindByCode(l.rooms, code).Some? then (l, Err(CodeTaken))
      else (l.(rooms := l.rooms + [Room(code, host, capacity, Waiting, [Member(host, false, now)])]), Ok(|l.rooms|))
  }

  function JoinRoom(rules: Rules, l: Lobby, p: PlayerId, code: string, now: int): (Lobby, Result) {
    if FindByPlayer(l.rooms, p).Some? then (l, Err(AlreadyInARoom))
    else
      var room := FindByCode(l.rooms, rules.upper(code));
      if room == None then (l, Err(NoSuchRoom)) else AddMember(l, room.value, p, now)
  }

  function LeaveRoom(l: Lobby, p: PlayerId): (Lobby, Result) {
    var room := FindByPlayer(l.rooms, p);
    if room == None then (l, Err(NotInARoom)) else RemoveMember(l, room.value, p)
  }

  function SetReady(l: Lobby, p: PlayerId, ready: bool): (Lobby, Result) {
    var found := FindByPlayer(l.rooms, p);
    if found == None then (l, Err(NotInARoom))
    else
      if l.rooms[found.value].status != Waiting then (l, Err(AlreadyStarted))
      else ChangeReady(l, found.value, p, ready)
  }

  function SessionRows(id: RoomId, members: seq<Member>): (rows: seq<SessionRow>)
    ensures |rows| == |members| && forall k :: 0 <= k < |members| ==> rows[k] == SessionRow(id, members[k].playerId)
  {
    if members == [] then []
    else SessionRows(id, members[..|members| - 1]) + [SessionRow(id, members[|members| - 1].playerId)]
  }

  predicate AllReady(room: Room) {
    forall k :: 0 <= k < |room.members| ==> room.members[k].ready || room.members[k].playerId == room.hostId
  }

  function StartGame(l: Lobby, p: PlayerId): (Lobby, Result) {
    var found := FindByPlayer(l.rooms, p);
    if found == None then (l, Err(NotInARoom))
    else
      var room := l.rooms[found.value];
      if room.hostId != p then (l, Err(NotTheHost))
      else if room.status != Waiting then (l, Err(AlreadyStarted))
      else if |room.members| < 1 || !AllReady(room) then (l, Err(NotAllReady))
      else
        var started := l.rooms[found.value := room.(status := InProgress)];
        (Lobby(started, l.sessions + SessionRows(found.value, room.members)), Ok(found.value))
  }

  datatype Op =
    | CreateOp(hostId: PlayerId, wanted: Option<int>, codes: Codes, now: int)
    | JoinOp(playerId: PlayerId, code: string, now: int)
    | LeaveOp(playerId: PlayerId)
    | ReadyOp(playerId: PlayerId, ready: bool)
    | StartOp(playerId: PlayerId)

  function Step(rules: Rules, l: Lobby, op: Op): Lobby {
    match op
    case CreateOp(host, wanted, codes, now) => CreateRoom(rules.max, l, host, wanted, codes, now).0
    case JoinOp(p, code, now) => JoinRoom(rules, l, p, code, now).0
    case LeaveOp(p) => LeaveRoom(l, p).0
    case ReadyOp(p, ready) => SetReady(l, p, ready).0
    case StartOp(p) => StartGame(l, p).0
  }

  // ---------- what every call keeps ----------

  /** Everyone in the lobby joined before. */
  predicate After(l: Lobby, now: int) {
    forall i, k :: 0 <= i < |l.rooms| && 0 <= k < |l.rooms[i].members| ==> l.rooms[i].members[k].joinedAt < now
  }

  /** Join times go up. */
  predicate Timely(l: Lobby, op: Op) {
    match op
    case CreateOp(_, _, _, now) => After(l, now)
    case JoinOp(_, _, now) => After(l, now)
    case _ => true
  }

  predicate OnceEach(members: seq<Member>) {
    forall j, k :: 0 <= j < k < |members| ==>
        members[j].playerId != members[k].playerId && members[j].joinedAt < members[k].joinedAt
  }

  /** One room: closed exactly when empty, never too full, led by whoever of its members joined
      first, and in progress only with everyone ready. */
  predicate RoomSound(max: int, room: Room) {
    && (room.status == Closed <==> room.members == [])
    && MIN_PLAYERS <= room.maxPlayers <= max && |room.members| <= room.maxPlayers
    && OnceEach(room.members)
    && (room.members != [] ==> room.hostId == room.members[0].playerId)
    && (room.status == InProgress ==> AllReady(room))
  }

  ghost predicate LobbyInv(max: int, l: Lobby) {
    && (forall i :: 0 <= i < |l.rooms| ==> RoomSound(max, l.rooms[i]))
    && (forall i, j, p :: 0 <= i < j < |l.rooms| && Has(l.rooms[i].members, p) ==> !Has(l.rooms[j].members, p))
    && (forall i, j :: 0 <= i < j < |l.rooms| ==> l.rooms[i].code != l.rooms[j].code)
    && (forall k :: 0 <= k < |l.sessions| ==>
         l.sessions[k].roomId < |l.rooms| && l.rooms[l.sessions[k].roomId].status != Waiting)
    && (forall j, k :: 0 <= j < k < |l.sessions| ==> l.sessions[j] != l.sessions[k])
  }

  lemma NewLobbyInv(max: int)
    ensures LobbyInv(max, NEW_LOBBY)
  {
  }

  /** One room was replaced by one with the same code, nobody new from elsewhere, and a status that
      does not go back to waiting. */
  lemma ReplacedKeeps(max: int, l: Lobby, id: RoomId, room: Room)
    requires LobbyInv(max, l) && id < |l.rooms| && RoomSound(max, room)
    requires room.code == l.rooms[id].code && (l.rooms[id].status == Waiting || room.status != Waiting)
    requires forall p :: Has(room.members, p) ==>
               Has(l.rooms[id].members, p) || forall i :: 0 <= i < |l.rooms| ==> !Has(l.rooms[i].members, p)
    ensures LobbyInv(max, l.(rooms := l.rooms[id := room]))
  {
    hide RoomSound, Has;
  }

  lemma AddedIsSound(max: int, room: Room, p: PlayerId, now: int)
    requires RoomSound(max, room) && room.status == Waiting && |room.members| < room.maxPlayers && !Has(room.members, p)
    requires forall k :: 0 <= k < |room.members| ==> room.members[k].joinedAt < now
    ensures RoomSound(max, room.(members := room.members + [Member(p, false, now)]))
  {
  }

  lemma {:induction false} WithoutMemberHolds(members: seq<Member>, p: PlayerId)
    ensures var rest := WithoutMember(members, p);
            && |rest| <= |members| && (forall m :: m in rest <==> m in members && m.playerId != p)
            && (members != [] && members[0].playerId != p ==> rest != [] && rest[0] == members[0])
  {
    if members != [] {
      var init := members[..|members| - 1];
      WithoutMemberHolds(init, p);
      assert members == init + [members[|members| - 1]];
    }
  }

  lemma {:induction false} WithoutMemberOrder(members: seq<Member>, p: PlayerId)
    requires OnceEach(members)
    ensures OnceEach(WithoutMember(members, p))
  {
    if members != [] {
      var init, last := members[..|members| - 1], members[|members| - 1];
      WithoutMemberOrder(init, p);
      WithoutMemberHolds(init, p);
      forall m | m in WithoutMember(init, p)
        ensures m.playerId != last.playerId && m.joinedAt < last.joinedAt
      {
        assert m in init;
      }
    }
  }

  lemma WithoutMemberHas(members: seq<Member>, p: PlayerId)
    ensures forall q :: Has(WithoutMember(members, p), q) <==> Has(members, q) && q != p
  {
    hide WithoutMember;
    var rest := WithoutMember(members, p);
    WithoutMemberHolds(members, p);
    forall q
      ensures Has(rest, q) <==> Has(members, q) && q != p
    {
      if Has(rest, q) {
        var k :| 0 <= k < |rest| && rest[k].playerId == q;
        assert rest[k] in members;
      }
      if Has(members, q) && q != p {
        var k :| 0 <= k < |members| && members[k].playerId == q;
        assert members[k] in rest;
      }
    }
  }

  lemma FirstIsEarliest(members: seq<Member>)
    requires members != [] && OnceEach(members)
    ensures Earliest(members) == members[0]
  {
    var first := Earliest(members);
    var k :| 0 <= k < |members| && members[k] == first;
  }

  lemma StillReady(room: Room, rest: seq<Member>, host: PlayerId)
    requires AllReady(room) && forall m :: m in rest ==>
               m in room.members && (m.playerId == room.hostId ==> host == room.hostId)
    ensures AllReady(room.(members := rest, hostId := host))
  {
    forall k | 0 <= k < |rest|
      ensures rest[k].ready || rest[k].playerId == host
    {
      assert rest[k] in room.members;
    }
  }

  /** What is left of a room when a member goes, whoever it was. */
  lemma LeftIsSound(max: int, room: Room, p: PlayerId)
    requires RoomSound(max, room) && Has(room.members, p)
    ensures RoomSound(max, Left(room, p))
  {
    hide WithoutMember, Has, AllReady, Earliest;
    var rest := WithoutMember(room.members, p);
    WithoutMemberHolds(room.members, p);
    WithoutMemberOrder(room.members, p);
    if rest != [] {
      FirstIsEarliest(rest);
      if room.status == InProgress {
        StillReady(room, rest, if room.hostId == p then Earliest(rest).playerId else room.hostId);
      }
    }
  }

  lemma CreateKeeps(max: int, l: Lobby, host: PlayerId, wanted: Option<int>, codes: Codes, now: int)
    requires LobbyInv(max, l)
    ensures LobbyInv(max, CreateRoom(max, l, host, wanted, codes, now).0)
  {
    hide PickCode;
    var (l', r) := CreateRoom(max, l, host, wanted, codes, now);
    if r.Ok? {
      var room := l'.rooms[|l.rooms|];
      assert l'.rooms == l.rooms + [room];
      assert forall p :: Has(room.members, p) ==> p == host;
      assert forall i :: 0 <= i < |l.rooms| ==> !Has(l.rooms[i].members, host);
    }
  }

  lemma JoinKeeps(rules: Rules, l: Lobby, p: PlayerId, code: string, now: int)
    requires LobbyInv(rules.max, l) && After(l, now)
    ensures LobbyInv(rules.max, JoinRoom(rules, l, p, code, now).0)
  {
    var (l', r) := JoinRoom(rules, l, p, code, now);
    if r.Ok? {
      var room := l.rooms[r.room];
      AddedIsSound(rules.max, room, p, now);
      assert forall i :: 0 <= i < |l.rooms| ==> !Has(l.rooms[i].members, p);
      HasOneMore(room.members, Member(p, false, now));
      ReplacedKeeps(rules.max, l, r.room, room.(members := room.members + [Member(p, false, now)]));
    }
  }

  lemma HasOneMore(members: seq<Member>, m: Member)
    ensures forall q :: Has(members + [m], q) <==> Has(members, q) || q == m.playerId
  {
    assert (members + [m])[|members|] == m;
    assert forall k :: 0 <= k < |members| ==> (members + [m])[k] == members[k];
  }

  lemma LeaveKeeps(max: int, l: Lobby, p: PlayerId)
    requires LobbyInv(max, l)
    ensures LobbyInv(max, LeaveRoom(l, p).0)
  {
    hide RoomSound, Has, WithoutMember, Earliest;
    var found := FindByPlayer(l.rooms, p);
    if found.Some? {
      var room := l.rooms[found.value];
      LeftIsSound(max, room, p);
      WithoutMemberHas(room.members, p);
      ReplacedKeeps(max, l, found.value, Left(room, p));
    }
  }

  lemma ReadyIsSound(max: int, room: Room, p: PlayerId, ready: bool)
    requires RoomSound(max, room) && room.status == Waiting
    ensures RoomSound(max, room.(members := WithReady(room.members, p, ready)))
    ensures forall q :: Has(WithReady(room.members, p, ready), q) <==> Has(room.members, q)
  {
    var members := WithReady(room.members, p, ready);
    assert forall k :: 0 <= k < |members| ==>
        members[k].playerId == room.members[k].playerId && members[k].joinedAt == room.members[k].joinedAt;
  }

  lemma ReadyKeeps(max: int, l: Lobby, p: PlayerId, ready: bool)
    requires LobbyInv(max, l)
    ensures LobbyInv(max, SetReady(l, p, ready).0)
  {
    hide RoomSound, Has, WithReady;
    var found := FindByPlayer(l.rooms, p);
    if found.Some? && l.rooms[found.value].status == Waiting {
      var room := l.rooms[found.value];
      ReadyIsSound(max, room, p, ready);
      ReplacedKeeps(max, l, found.value, room.(members := WithReady(room.members, p, ready)));
    }
  }

  lemma StartedIsSound(max: int, room: Room)
    requires RoomSound(max, room) && room.status == Waiting && AllReady(room)
    ensures RoomSound(max, room.(status := InProgress)) && OnceEach(room.members)
  {
  }

  lemma StartKeeps(max: int, l: Lobby, p: PlayerId)
    requires LobbyInv(max, l)
    ensures LobbyInv(max, StartGame(l, p).0)
  {
    hide RoomSound, Has, AllReady;
    var (l', r) := StartGame(l, p);
    if r.Ok? {
      var room := l.rooms[r.room];
      StartedIsSound(max, room);
      ReplacedKeeps(max, l, r.room, room.(status := InProgress));
      var rows := SessionRows(r.room, room.members);
      assert l'.sessions == l.sessions + rows;
      assert forall k :: 0 <= k < |l'.sessions| ==>
          l'.sessions[k] == if k < |l.sessions| then l.sessions[k] else rows[k - |l.sessions|];
    }
  }

  lemma StepKeeps(rules: Rules, l: Lobby, op: Op)
    requires LobbyInv(rules.max, l) && Timely(l, op)
    ensures LobbyInv(rules.max, Step(rules, l, op))
  {
    hide LobbyInv, CreateRoom, JoinRoom, LeaveRoom, SetReady, StartGame;
    match op
    case CreateOp(host, wanted, codes, now) => CreateKeeps(rules.max, l, host, wanted, codes, now);
    case JoinOp(p, code, now) => JoinKeeps(rules, l, p, code, now);
    case LeaveOp(p) => LeaveKeeps(rules.max, l, p);
    case ReadyOp(p, ready) => ReadyKeeps(rules.max, l, p, ready);
    case StartOp(p) => StartKeeps(rules.max, l, p);
  }

  /** Any sequence of calls; one whose join time would not be the latest is passed over. */
  function Run(rules: Rules, l: Lobby, ops: seq<Op>): Lobby {
    if ops == [] then l
    else
      var before := Run(rules, l, ops[..|ops| - 1]);
      if Timely(before, ops[|ops| - 1]) then Step(rules, before, ops[|ops| - 1]) else before
  }

  lemma {:induction false} RunKeeps(rules: Rules, l: Lobby, ops: seq<Op>)
    requires LobbyInv(rules.max, l)
    ensures LobbyInv(rules.max, Run(rules, l, ops))
  {
    hide LobbyInv, Step, Timely;
    if ops != [] {
      RunKeeps(rules, l, ops[..|ops| - 1]);
      if Timely(Run(rules, l, ops[..|ops| - 1]), ops[|ops| - 1]) {
        StepKeeps(rules, Run(rules, l, ops[..|ops| - 1]), ops[|ops| - 1]);
      }
    }
  }
}
