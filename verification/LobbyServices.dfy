/** The lobby as the program keeps it: tables of rooms, members and session rows changed in place by
    calls made one after another. */
module LobbyServices {
  import opened OrderedMaps
  import Spec = Lobbies
  import opened Lobbies

  /** Tells whether the player is among the members. */
  method IsMember(members: seq<Member>, p: PlayerId) returns (found: bool)
    ensures found == Has(members, p)
  {
    for i := 0 to |members|
      invariant forall k :: 0 <= k < i ==> members[k].playerId != p
    {
      if members[i].playerId == p {
        return true;
      }
    }
    found := false;
  }

  class RoomRepository {
    var rooms: seq<Room>

    constructor ()
      ensures rooms == []
    {
      rooms := [];
    }

    /** Adds a waiting room with its host as only member, unless the code is taken. */
    method Create(code: string, hostId: PlayerId, maxPlayers: int, now: int) returns (result: Result)
      modifies this
      ensures if Spec.FindByCode(old(rooms), code).Some? then result == Err(CodeTaken) && rooms == old(rooms)
              else
                && result == Ok(old(|rooms|))
                && rooms == old(rooms) + [Room(code, hostId, maxPlayers, Waiting, [Member(hostId, false, now)])]
    {
      var taken := FindByCode(code);
      if taken.Some? {
        return Err(CodeTaken);
      }
      result := Ok(|rooms|);
      rooms := rooms + [Room(code, hostId, maxPlayers, Waiting, [Member(hostId, false, now)])];
    }

    method FindByCode(code: string) returns (found: Option<RoomId>)
      ensures found == Spec.FindByCode(rooms, code)
    {
      var n := |rooms|;
      assert rooms[..n] == rooms;
      while n > 0
        invariant n <= |rooms| && Spec.FindByCode(rooms, code) == Spec.FindByCode(rooms[..n], code)
      {
        assert rooms[..n][..n - 1] == rooms[..n - 1];
        n := n - 1;
        if rooms[n].code == code {
          return Some(n);
        }
      }
      found := None;
    }

    method FindByPlayerId(p: PlayerId) returns (found: Option<RoomId>)
      ensures found == FindByPlayer(rooms, p)
    {
      hide Has;
      var n := |rooms|;
      assert rooms[..n] == rooms;
      while n > 0
        invariant n <= |rooms| && FindByPlayer(rooms, p) == FindByPlayer(rooms[..n], p)
      {
        assert rooms[..n][..n - 1] == rooms[..n - 1];
        n := n - 1;
        var inside := IsMember(rooms[n].members, p);
        if rooms[n].status != Closed && inside {
          return Some(n);
        }
      }
      found := None;
    }

    method AddMember(id: RoomId, p: PlayerId, now: int) returns (result: Result)
      modifies this
      ensures forall sessions ::
                (Lobby(rooms, sessions), result) == Spec.AddMember(Lobby(old(rooms), sessions), id, p, now)
    {
      if id >= |rooms| {
        return Err(NoSuchRoom);
      }
      var room := rooms[id];
      if room.status != Waiting {
        return Err(NotAccepting);
      }
      if |room.members| >= room.maxPlayers {
        return Err(RoomFull);
      }
      var inside := IsMember(room.members, p);
      if inside {
        return Err(AlreadyInARoom);
      }
      rooms := rooms[id := room.(members := room.members + [Member(p, false, now)])];
      result := Ok(id);
    }

    /** Deletes the member; then closes the room when nobody is left, or passes on the lead. */
    method RemoveMember(id: RoomId, p: PlayerId) returns (result: Result)
      modifies this
      ensures forall sessions ::
                (Lobby(rooms, sessions), result) == Spec.RemoveMember(Lobby(old(rooms), sessions), id, p)
    {
      hide WithoutMember, Earliest;
      if id >= |rooms| {
        return Err(NoSuchRoom);
      }
      result := Ok(id);
      var room := rooms[id];
      var rest := DeleteMember(room.members, p);
      if |rest| == 0 {
        rooms := rooms[id := room.(members := rest, status := Closed)];
        return;
      }
      var hostId := room.hostId;
      if room.hostId == p {
        var nextHost := FindEarliest(rest);
        hostId := nextHost.playerId;
      }
      rooms := rooms[id := room.(members := rest, hostId := hostId)];
    }

    /** Fails unless the player is a member of the room. */
    method SetReady(id: RoomId, p: PlayerId, ready: bool) returns (result: Result)
      modifies this
      ensures forall sessions ::
                (Lobby(rooms, sessions), result) == Spec.ChangeReady(Lobby(old(rooms), sessions), id, p, ready)
    {
      if id >= |rooms| {
        return Err(NotInARoom);
      }
      var members := rooms[id].members;
      var inside := IsMember(members, p);
      if !inside {
        return Err(NotInARoom);
      }
      for i := 0 to |members|
        invariant |members| == |rooms[id].members|
        invariant forall k :: 0 <= k < |members| ==>
                    members[k] == if k < i then Readied(rooms[id].members[k], p, ready) else rooms[id].members[k]
      {
        if members[i].playerId == p {
          members := members[i := members[i].(ready := ready)];
        }
      }
      assert members == WithReady(rooms[id].members, p, ready);
      rooms := rooms[id := rooms[id].(members := members)];
      result := Ok(id);
    }

    /** Fails for a room that is not there. */
    method UpdateStatus(id: RoomId, status: Status) returns (result: Result)
      modifies this
      ensures if id < |old(rooms)| then result == Ok(id) && rooms == old(rooms)[id := old(rooms)[id].(status := status)]
              else result == Err(NoSuchRoom) && rooms == old(rooms)
    {
      if id >= |rooms| {
        return Err(NoSuchRoom);
      }
      rooms := rooms[id := rooms[id].(status := status)];
      result := Ok(id);
    }
  }

  method DeleteMember(members: seq<Member>, p: PlayerId) returns (rest: seq<Member>)
    ensures rest == WithoutMember(members, p)
  {
    rest := [];
    for i := 0 to |members|
      invariant rest == WithoutMember(members[..i], p)
    {
      assert members[..i + 1][..i] == members[..i];
      if members[i].playerId != p {
        rest := rest + [members[i]];
      }
    }
    assert members[..|members|] == members;
  }

  method FindEarliest(members: seq<Member>) returns (first: Member)
    requires members != []
    ensures first == Earliest(members)
  {
    first := members[0];
    assert members[..1] == [members[0]];
    for i := 1 to |members|
      invariant first == Earliest(members[..i])
    {
      assert members[..i + 1][..i] == members[..i];
      if members[i].joinedAt < first.joinedAt {
        first := members[i];
      }
    }
    assert members[..|members|] == members;
  }

  class SessionRepository {
    var rows: seq<SessionRow>

    constructor ()
      ensures rows == []
    {
      rows := [];
    }

    method Create(roomId: RoomId, playerId: PlayerId)
      modifies this
      ensures rows == old(rows) + [SessionRow(roomId, playerId)]
    {
      rows := rows + [SessionRow(roomId, playerId)];
    }

    method CreateAll(roomId: RoomId, members: seq<Member>)
      modifies this
      ensures rows == old(rows) + SessionRows(roomId, members)
    {
      for i := 0 to |members|
        invariant rows == old(rows) + SessionRows(roomId, members[..i])
      {
        assert members[..i + 1][..i] == members[..i];
        Create(roomId, members[i].playerId);
      }
      assert members[..|members|] == members;
    }
  }

  class LobbyService {
    const rooms: RoomRepository
    const sessions: SessionRepository
    const rules: Rules

    constructor (rooms: RoomRepository, sessions: SessionRepository, rules: Rules)
      ensures this.rooms == rooms && this.sessions == sessions && this.rules == rules
    {
      this.rooms, this.sessions, this.rules := rooms, sessions, rules;
    }

    ghost function Model(): Lobby
      reads this, rooms, sessions
    {
      Lobby(rooms.rooms, sessions.rows)
    }

    /** Draws codes until one is free, five times at most after the first; the last is not looked up. */
    method DrawCode(codes: Codes) returns (code: string)
      ensures code == PickCode(rooms.rooms, codes)
    {
      code := codes[0];
      assert codes[0..] == codes;
      for attempt := 0 to CODE_RETRIES
        invariant code == codes[attempt] && PickCode(rooms.rooms, codes) == PickCode(rooms.rooms, codes[attempt..])
      {
        var collision := rooms.FindByCode(code);
        if collision == None {
          return;
        }
        assert codes[attempt..][1..] == codes[attempt + 1..];
        code := codes[attempt + 1];
      }
    }

    method CreateRoom(hostId: PlayerId, wanted: Option<int>, codes: Codes, now: int) returns (result: Result)
      modifies rooms
      ensures (Model(), result) == Spec.CreateRoom(rules.max, old(Model()), hostId, wanted, codes, now)
    {
      hide PickCode, FindByPlayer, Spec.FindByCode;
      var capacity := if wanted.Some? then wanted.value else rules.max;
      if capacity < MIN_PLAYERS || capacity > rules.max {
        return Err(InvalidCapacity);
      }
      var existing := rooms.FindByPlayerId(hostId);
      if existing.Some? {
        return Err(AlreadyInARoom);
      }
      var code := DrawCode(codes);
      result := rooms.Create(code, hostId, capacity, now);
    }

    method JoinRoom(playerId: PlayerId, code: string, now: int) returns (result: Result)
      modifies rooms
      ensures (Model(), result) == Spec.JoinRoom(rules, old(Model()), playerId, code, now)
    {
      hide FindByPlayer, Spec.FindByCode, Spec.AddMember;
      var existing := rooms.FindByPlayerId(playerId);
      if existing.Some? {
        return Err(AlreadyInARoom);
      }
      var room := rooms.FindByCode(rules.upper(code));
      if room == None {
        return Err(NoSuchRoom);
      }
      result := rooms.AddMember(room.value, playerId, now);
    }

    method LeaveRoom(playerId: PlayerId) returns (result: Result)
      modifies rooms
      ensures (Model(), result) == Spec.LeaveRoom(old(Model()), playerId)
    {
      hide FindByPlayer, Spec.RemoveMember;
      var room := rooms.FindByPlayerId(playerId);
      if room == None {
        return Err(NotInARoom);
      }
      result := rooms.RemoveMember(room.value, playerId);
    }

    method SetReady(playerId: PlayerId, ready: bool) returns (result: Result)
      modifies rooms
      ensures (Model(), result) == Spec.SetReady(old(Model()), playerId, ready)
    {
      hide FindByPlayer, WithReady;
      var room := rooms.FindByPlayerId(playerId);
      if room == None {
        return Err(NotInARoom);
      }
      if rooms.rooms[room.value].status != Waiting {
        return Err(AlreadyStarted);
      }
      result := rooms.SetReady(room.value, playerId, ready);
    }

    method StartGame(playerId: PlayerId) returns (result: Result)
      modifies rooms, sessions
      ensures (Model(), result) == Spec.StartGame(old(Model()), playerId)
    {
      hide FindByPlayer, SessionRows;
      var found := rooms.FindByPlayerId(playerId);
      if found == None {
        return Err(NotInARoom);
      }
      var room := rooms.rooms[found.value];
      if room.hostId != playerId {
        return Err(NotTheHost);
      }
      if room.status != Waiting {
        return Err(AlreadyStarted);
      }
      if |room.members| < 1
         || exists m :: m in room.members && !m.ready && m.playerId != room.hostId {
        return Err(NotAllReady);
      }
      result := rooms.UpdateStatus(found.value, InProgress);
      sessions.CreateAll(found.value, room.members);
    }
  }
}
