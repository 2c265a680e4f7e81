/** What the lobby promises over every sequence of calls, and exactly when its calls succeed. */
module LobbyGuarantees {
  import opened OrderedMaps
  import opened Lobbies

  /** The player is in the room, which is open. */
  predicate IsIn(l: Lobby, p: PlayerId, i: RoomId) {
    i < |l.rooms| && l.rooms[i].status != Closed && Has(l.rooms[i].members, p)
  }

  /** In every reachable lobby: a room is closed exactly when it has no members, holds no more than
      its capacity, and while open is led by the member who joined before all others; in a game every
      member is ready or leads; and nobody is in two rooms or has two session rows for one. */
  lemma EveryReachableRoom(rules: Rules, ops: seq<Op>, i: RoomId, j: RoomId, p: PlayerId)
    ensures var l := Run(rules, NEW_LOBBY, ops);
            && (i < |l.rooms| ==>
                  var room := l.rooms[i];
                  && (room.status == Closed <==> room.members == [])
                  && 2 <= room.maxPlayers <= rules.max && |room.members| <= room.maxPlayers
                  && (room.status != Closed ==>
                        exists h :: h in room.members && h.playerId == room.hostId
                                    && forall m :: m in room.members && m != h ==> h.joinedAt < m.joinedAt)
                  && (room.status == InProgress ==>
                        forall m :: m in room.members ==> m.ready || m.playerId == room.hostId))
            && (IsIn(l, p, i) && IsIn(l, p, j) ==> i == j)
            && (forall a, b :: 0 <= a < b < |l.sessions| ==> l.sessions[a] != l.sessions[b])
  {
    hide Run, FindByPlayer, FindByCode;
    NewLobbyInv(rules.max);
    RunKeeps(rules, NEW_LOBBY, ops);
    var l := Run(rules, NEW_LOBBY, ops);
    if i < |l.rooms| && l.rooms[i].status != Closed {
      HostIsFirst(l.rooms[i]);
    }
  }

  lemma HostIsFirst(room: Room)
    requires OnceEach(room.members) && room.members != [] && room.hostId == room.members[0].playerId
    ensures exists h :: h in room.members && h.playerId == room.hostId
                        && forall m :: m in room.members && m != h ==> h.joinedAt < m.joinedAt
  {
    var h := room.members[0];
    forall m | m in room.members && m != h
      ensures h.joinedAt < m.joinedAt
    {
      var k :| 0 <= k < |room.members| && room.members[k] == m;
      assert k != 0;
    }
  }

  // ---------- forward only ----------

  function Rank(status: Status): nat {
    match status
    case Waiting => 0
    case InProgress => 1
    case Closed => 2
  }

  /** Rooms stay, with their codes and capacities; statuses only move forward, a game gains no
      member, and a closed room stays as it is. */
  predicate Forward(l: Lobby, l': Lobby) {
    && |l.rooms| <= |l'.rooms|
    && forall i :: 0 <= i < |l.rooms| ==> ForwardRoom(l.rooms[i], l'.rooms[i])
  }

  predicate ForwardRoom(r: Room, r': Room) {
    && r'.code == r.code && r'.maxPlayers == r.maxPlayers
    && Rank(r.status) <= Rank(r'.status)
    && (r.status != Waiting ==> forall m :: m in r'.members ==> m in r.members)
    && (r.status == Closed ==> r' == r)
  }

  lemma StepForward(rules: Rules, l: Lobby, op: Op)
    requires LobbyInv(rules.max, l)
    ensures Forward(l, Step(rules, l, op))
  {
    hide PickCode, RoomSound, WithoutMember, Earliest, SessionRows, AllReady, Has, WithReady;
    if op.LeaveOp? {
      var found := FindByPlayer(l.rooms, op.playerId);
      if found.Some? {
        WithoutMemberHolds(l.rooms[found.value].members, op.playerId);
      }
    }
  }

  lemma ForwardChains(a: Lobby, b: Lobby, c: Lobby)
    requires Forward(a, b) && Forward(b, c)
    ensures Forward(a, c)
  {
    assert forall i :: 0 <= i < |a.rooms| ==>
        ForwardRoom(a.rooms[i], b.rooms[i]) && ForwardRoom(b.rooms[i], c.rooms[i]);
  }

  /** Over every sequence of calls. */
  lemma {:induction false} OnlyForward(rules: Rules, l: Lobby, ops: seq<Op>)
    requires LobbyInv(rules.max, l)
    ensures Forward(l, Run(rules, l, ops))
  {
    hide LobbyInv, Step, Timely, ForwardRoom;
    if ops == [] {
      SameIsForward(l);
    } else {
      var before := Run(rules, l, ops[..|ops| - 1]);
      OnlyForward(rules, l, ops[..|ops| - 1]);
      if Timely(before, ops[|ops| - 1]) {
        RunKeeps(rules, l, ops[..|ops| - 1]);
        StepForward(rules, before, ops[|ops| - 1]);
        ForwardChains(l, before, Run(rules, l, ops));
      }
    }
  }

  lemma SameIsForward(l: Lobby)
    ensures Forward(l, l)
  {
  }

  // ---------- succession, and what undoes what ----------

  /** When the host leaves others behind, the one who has been there longest leads; when anyone else
      leaves the host stays; when the last leaves the room is closed. */
  lemma Succession(max: int, l: Lobby, p: PlayerId, i: RoomId)
    requires LobbyInv(max, l) && IsIn(l, p, i)
    ensures var (l', result) := LeaveRoom(l, p);
            && result == Ok(i) && |l'.rooms| == |l.rooms|
               && (forall j :: 0 <= j < |l.rooms| && j != i ==> l'.rooms[j] == l.rooms[j])
            && var was, now := l.rooms[i], l'.rooms[i];
               && !Has(now.members, p) && (forall m :: m in now.members <==> m in was.members && m.playerId != p)
               && (now.members == [] ==> now.status == Closed)
               && (now.members != [] ==>
                     && now.status == was.status
                     && (was.hostId != p ==> now.hostId == was.hostId)
                     && (was.hostId == p ==>
                           exists h :: h in now.members && h.playerId == now.hostId
                                       && forall m :: m in now.members ==> h.joinedAt <= m.joinedAt))
  {
    hide RoomSound, WithoutMember;
    OnlyRoomOf(max, l, p, i);
    WithoutMemberHolds(l.rooms[i].members, p);
    WithoutMemberHas(l.rooms[i].members, p);
    var rest := WithoutMember(l.rooms[i].members, p);
    if rest != [] {
      EarliestLeads(rest);
    }
  }

  lemma EarliestLeads(members: seq<Member>)
    requires members != []
    ensures Earliest(members) in members && forall m :: m in members ==> Earliest(members).joinedAt <= m.joinedAt
  {
    forall m | m in members
      ensures Earliest(members).joinedAt <= m.joinedAt
    {
      var k :| 0 <= k < |members| && members[k] == m;
    }
  }

  lemma OnlyRoomOf(max: int, l: Lobby, p: PlayerId, i: RoomId)
    requires LobbyInv(max, l) && IsIn(l, p, i)
    ensures FindByPlayer(l.rooms, p) == Some(i)
  {
    hide RoomSound;
    var found := FindByPlayer(l.rooms, p);
    assert found.Some?;
  }

  lemma WithoutOneMore(init: seq<Member>, last: Member, p: PlayerId)
    ensures WithoutMember(init + [last], p) == WithoutMember(init, p) + if last.playerId == p then [] else [last]
  {
    assert (init + [last])[..|init|] == init;
  }

  lemma {:induction false} WithoutNobody(members: seq<Member>, p: PlayerId)
    requires forall m :: m in members ==> m.playerId != p
    ensures WithoutMember(members, p) == members
  {
    if members == [] {
      assert WithoutMember([], p) == [];
    } else {
      hide WithoutMember;
      var init, last := members[..|members| - 1], members[|members| - 1];
      assert members == init + [last];
      WithoutNobody(init, p);
      WithoutOneMore(init, last, p);
    }
  }

  lemma WithoutLast(members: seq<Member>, p: PlayerId, now: int)
    requires !Has(members, p)
    ensures WithoutMember(members + [Member(p, false, now)], p) == members
  {
    assert (members + [Member(p, false, now)])[..|members|] == members;
    forall m | m in members
      ensures m.playerId != p
    {
      var k :| 0 <= k < |members| && members[k] == m;
    }
    WithoutNobody(members, p);
  }

  lemma RemovingUndoesAdding(l: Lobby, i: RoomId, p: PlayerId, now: int)
    requires i < |l.rooms| && AddMember(l, i, p, now).1.Ok?
    requires l.rooms[i].members != [] && l.rooms[i].hostId != p
    ensures RemoveMember(AddMember(l, i, p, now).0, i, p) == (l, Ok(i))
  {
    hide WithoutMember, Has;
    WithoutLast(l.rooms[i].members, p, now);
    var back := RemoveMember(AddMember(l, i, p, now).0, i, p).0;
    assert back.rooms[i] == l.rooms[i];
    assert back.rooms == l.rooms;
  }

  /** Leaving undoes joining: the lobby is back exactly as it was. */
  lemma LeavingUndoesJoining(rules: Rules, l: Lobby, p: PlayerId, code: string, now: int)
    requires LobbyInv(rules.max, l) && After(l, now)
    ensures var (l', result) := JoinRoom(rules, l, p, code, now);
            result.Ok? ==> IsIn(l', p, result.room) && LeaveRoom(l', p) == (l, result)
  {
    hide RoomSound, FindByPlayer, FindByCode, RemoveMember, Has;
    var (l', result) := JoinRoom(rules, l, p, code, now);
    if result.Ok? {
      var was := l.rooms[result.room];
      HasOneMore(was.members, Member(p, false, now));
      JoinKeeps(rules, l, p, code, now);
      OnlyRoomOf(rules.max, l', p, result.room);
      HostIsMember(rules.max, was);
      RemovingUndoesAdding(l, result.room, p, now);
    }
  }

  lemma HostIsMember(max: int, room: Room)
    requires RoomSound(max, room) && room.status != Closed
    ensures room.members != [] && Has(room.members, room.hostId)
  {
    assert room.members[0].playerId == room.hostId;
  }

  // ---------- exactly when calls succeed ----------

  /** A room is made exactly when its capacity is allowed, its host is in no room, and one of the six
      codes drawn for it is free; it gets the first of them that is, and only its host. */
  lemma CreatesExactlyWhen(max: int, l: Lobby, host: PlayerId, wanted: Option<int>, codes: Codes, now: int)
    ensures var (l', result) := CreateRoom(max, l, host, wanted, codes, now);
            var capacity := if wanted.Some? then wanted.value else max;
            && (result.Ok? <==>
                  && 2 <= capacity <= max
                  && (forall i :: !IsIn(l, host, i))
                  && (exists n :: 0 <= n < 6 && Free(l, codes[n])))
            && (result.Ok? ==>
                  && result.room == |l.rooms| && |l'.rooms| == |l.rooms| + 1 && l'.rooms[..|l.rooms|] == l.rooms
                     && l'.sessions == l.sessions
                  && var made := l'.rooms[|l.rooms|];
                     && made.hostId == host && made.maxPlayers == capacity && made.status == Waiting
                        && made.members == [Member(host, false, now)]
                     && exists n :: 0 <= n < 6 && made.code == codes[n] && Free(l, codes[n])
                                    && forall m :: 0 <= m < n ==> !Free(l, codes[m]))
            && (!result.Ok? ==> l' == l)
  {
    hide Has;
    PickedIsFirstFree(l, codes);
    FindsExactly(l, host);
  }

  predicate Free(l: Lobby, code: string) {
    forall i :: 0 <= i < |l.rooms| ==> l.rooms[i].code != code
  }

  lemma {:induction false} PickedIsFirstFree(l: Lobby, codes: seq<string>)
    requires codes != []
    ensures var code := PickCode(l.rooms, codes);
            && (Free(l, code) <==> exists n :: 0 <= n < |codes| && Free(l, codes[n]))
            && (Free(l, code) ==>
                  exists n :: 0 <= n < |codes| && code == codes[n] && Free(l, codes[n])
                              && forall m :: 0 <= m < n ==> !Free(l, codes[m]))
            && (FindByCode(l.rooms, code).None? <==> Free(l, code))
  {
    assert FindByCode(l.rooms, codes[0]).None? <==> Free(l, codes[0]);
    if |codes| > 1 && !Free(l, codes[0]) {
      PickedIsFirstFree(l, codes[1..]);
      assert forall n :: 0 <= n < |codes[1..]| ==> codes[1..][n] == codes[n + 1];
      var code := PickCode(l.rooms, codes);
      if Free(l, code) {
        var n :| 0 <= n < |codes[1..]| && code == codes[1..][n] && Free(l, codes[1..][n])
                 && forall m :: 0 <= m < n ==> !Free(l, codes[1..][m]);
        assert codes[n + 1] == code;
        forall m | 0 <= m < n + 1
          ensures !Free(l, codes[m])
        {
          assert m > 0 ==> codes[m] == codes[1..][m - 1];
        }
      }
      if n :| 0 <= n < |codes| && Free(l, codes[n]) {
        assert codes[1..][n - 1] == codes[n];
      }
    } else {
      assert codes[0] == PickCode(l.rooms, codes);
    }
  }

  lemma FindsExactly(l: Lobby, p: PlayerId)
    ensures FindByPlayer(l.rooms, p).Some? <==> exists i :: IsIn(l, p, i)
  {
    hide Has;
    var found := FindByPlayer(l.rooms, p);
    if found.Some? {
      assert IsIn(l, p, found.value);
    }
  }

  /** A player joins exactly when they are in no room and the one with the code is waiting and not
      full. */
  lemma JoinsExactlyWhen(rules: Rules, l: Lobby, p: PlayerId, code: string, now: int, i: RoomId)
    requires LobbyInv(rules.max, l)
    ensures JoinRoom(rules, l, p, code, now).1 == Ok(i) <==>
            && (forall j :: !IsIn(l, p, j))
            && i < |l.rooms| && l.rooms[i].code == rules.upper(code)
            && l.rooms[i].status == Waiting && |l.rooms[i].members| < l.rooms[i].maxPlayers
    ensures !JoinRoom(rules, l, p, code, now).1.Ok? ==> JoinRoom(rules, l, p, code, now).0 == l
    ensures var (l', result) := JoinRoom(rules, l, p, code, now);
            result == Ok(i) && i < |l.rooms| ==>
              && l'.sessions == l.sessions && |l'.rooms| == |l.rooms|
              && (forall j :: 0 <= j < |l.rooms| && j != i ==> l'.rooms[j] == l.rooms[j])
              && var was := l.rooms[i];
                 l'.rooms[i] == Room(was.code, was.hostId, was.maxPlayers, was.status,
                                     was.members + [Member(p, false, now)])
  {
    hide Has, RoomSound;
    FindsExactly(l, p);
    if i < |l.rooms| && l.rooms[i].code == rules.upper(code) {
      var found := FindByCode(l.rooms, rules.upper(code));
      assert found.Some? && found.value == i;
      assert !IsIn(l, p, i) ==> l.rooms[i].status != Waiting || !Has(l.rooms[i].members, p);
    }
  }

  /** A player readies themselves, or not, exactly in the open room they are in and while it waits; the
      value they gave is stored for them, and for nobody else. */
  lemma ReadiesExactlyWhen(max: int, l: Lobby, p: PlayerId, ready: bool, i: RoomId)
    requires LobbyInv(max, l)
    ensures var (l', result) := SetReady(l, p, ready);
            && (result == Ok(i) <==> IsIn(l, p, i) && l.rooms[i].status == Waiting)
            && (!result.Ok? ==> l' == l)
            && (result == Ok(i) && i < |l.rooms| ==>
                  && l'.sessions == l.sessions && |l'.rooms| == |l.rooms|
                  && (forall j :: 0 <= j < |l.rooms| && j != i ==> l'.rooms[j] == l.rooms[j])
                  && var was, now := l.rooms[i], l'.rooms[i];
                     && now == Room(was.code, was.hostId, was.maxPlayers, was.status, now.members)
                     && |now.members| == |was.members|
                     && forall k :: 0 <= k < |was.members| ==>
                          && now.members[k].playerId == was.members[k].playerId
                          && now.members[k].joinedAt == was.members[k].joinedAt
                          && now.members[k].ready ==
                             if was.members[k].playerId == p then ready else was.members[k].ready)
  {
    hide RoomSound;
    if IsIn(l, p, i) {
      OnlyRoomOf(max, l, p, i);
    }
  }

  /** A player leaves exactly the open room they are in. */
  lemma LeavesExactlyWhen(max: int, l: Lobby, p: PlayerId, i: RoomId)
    requires LobbyInv(max, l)
    ensures LeaveRoom(l, p).1 == Ok(i) <==> IsIn(l, p, i)
    ensures !LeaveRoom(l, p).1.Ok? ==> LeaveRoom(l, p).0 == l
  {
    hide RoomSound;
    if IsIn(l, p, i) {
      OnlyRoomOf(max, l, p, i);
    }
  }

  /** A game starts exactly at its host's call, from waiting, with everyone else ready; every member
      then has one new session row. */
  lemma StartsExactlyWhen(max: int, l: Lobby, p: PlayerId, i: RoomId)
    requires LobbyInv(max, l)
    ensures var (l', result) := StartGame(l, p);
            && (result == Ok(i) <==>
                  && i < |l.rooms| && l.rooms[i].status == Waiting && l.rooms[i].hostId == p
                  && forall m :: m in l.rooms[i].members ==> m.ready || m.playerId == p)
            && (result == Ok(i) ==>
                  && l'.rooms == l.rooms[i := l.rooms[i].(status := InProgress)]
                  && l.sessions <= l'.sessions
                  && (forall q :: Has(l.rooms[i].members, q) <==> SessionRow(i, q) in l'.sessions[|l.sessions|..])
                  && (forall row :: row in l'.sessions[|l.sessions|..] ==> row.roomId == i))
            && (!result.Ok? ==> l' == l)
  {
    hide RoomSound, SessionRows, Has, FindByPlayer;
    if i < |l.rooms| && l.rooms[i].status == Waiting && l.rooms[i].hostId == p {
      HostIsMember(max, l.rooms[i]);
      OnlyRoomOf(max, l, p, i);
      AllReadyIs(l.rooms[i]);
      var rows := SessionRows(i, l.rooms[i].members);
      assert (l.sessions + rows)[|l.sessions|..] == rows;
      SessionsOfMembers(i, l.rooms[i].members);
    }
  }

  lemma AllReadyIs(room: Room)
    ensures AllReady(room) <==> forall m :: m in room.members ==> m.ready || m.playerId == room.hostId
  {
    if AllReady(room) {
      forall m | m in room.members
        ensures m.ready || m.playerId == room.hostId
      {
        var k :| 0 <= k < |room.members| && room.members[k] == m;
      }
    }
  }

  lemma SessionsOfMembers(i: RoomId, members: seq<Member>)
    ensures forall q :: Has(members, q) <==> SessionRow(i, q) in SessionRows(i, members)
    ensures forall row :: row in SessionRows(i, members) ==> row.roomId == i
  {
    var rows := SessionRows(i, members);
    forall q | Has(members, q)
      ensures SessionRow(i, q) in rows
    {
      var k :| 0 <= k < |members| && members[k].playerId == q;
      assert rows[k] == SessionRow(i, q);
    }
  }

  // ---------- why calls fail ----------

  /** A creation fails for its capacity, or else for the host being in a room, or else for all six codes
      being taken. */
  lemma CreateFailsBecause(max: int, l: Lobby, host: PlayerId, wanted: Option<int>, codes: Codes, now: int)
    ensures var result := CreateRoom(max, l, host, wanted, codes, now).1;
            var capacity := if wanted.Some? then wanted.value else max;
            && (result == Err(InvalidCapacity) <==> capacity < 2 || capacity > max)
            && (result == Err(AlreadyInARoom) <==> 2 <= capacity <= max && exists i :: IsIn(l, host, i))
            && (result == Err(CodeTaken) <==>
                  && 2 <= capacity <= max && (forall i :: !IsIn(l, host, i))
                  && forall n :: 0 <= n < 6 ==> !Free(l, codes[n]))
            && (result.Err? ==> result.why in {InvalidCapacity, AlreadyInARoom, CodeTaken})
  {
    hide Has, IsIn, Free;
    PickedIsFirstFree(l, codes);
    FindsExactly(l, host);
  }

  /** A join fails for the player being in a room, or else for the code being nobody's, or else for the
      room with the code not waiting, or else for its being full. */
  lemma JoinFailsBecause(rules: Rules, l: Lobby, p: PlayerId, code: string, now: int, i: RoomId)
    requires LobbyInv(rules.max, l)
    ensures var result := JoinRoom(rules, l, p, code, now).1;
            && (result == Err(AlreadyInARoom) <==> exists j :: IsIn(l, p, j))
            && (result == Err(NoSuchRoom) <==> (forall j :: !IsIn(l, p, j)) && Free(l, rules.upper(code)))
            && ((forall j :: !IsIn(l, p, j)) && i < |l.rooms| && l.rooms[i].code == rules.upper(code) ==>
                  && (result == Err(NotAccepting) <==> l.rooms[i].status != Waiting)
                  && (result == Err(RoomFull) <==>
                        l.rooms[i].status == Waiting && |l.rooms[i].members| >= l.rooms[i].maxPlayers))
  {
    hide Has, RoomSound;
    FindsExactly(l, p);
    var found := FindByCode(l.rooms, rules.upper(code));
    if found.Some? && (forall j :: !IsIn(l, p, j)) {
      assert !IsIn(l, p, found.value);
      assert !Free(l, rules.upper(code));
    }
  }

  /** A start fails for the player being in no room, or else for another being its host, or else for the
      game having started, or else for somebody not being ready. */
  lemma StartFailsBecause(max: int, l: Lobby, p: PlayerId, i: RoomId)
    requires LobbyInv(max, l)
    ensures var result := StartGame(l, p).1;
            && (result == Err(NotInARoom) <==> forall j :: !IsIn(l, p, j))
            && (IsIn(l, p, i) ==>
                  var room := l.rooms[i];
                  && (result == Err(NotTheHost) <==> room.hostId != p)
                  && (result == Err(AlreadyStarted) <==> room.hostId == p && room.status != Waiting)
                  && (result == Err(NotAllReady) <==>
                        && room.hostId == p && room.status == Waiting
                        && exists m :: m in room.members && !m.ready && m.playerId != p))
  {
    hide RoomSound, SessionRows, Has;
    FindsExactly(l, p);
    if IsIn(l, p, i) {
      OnlyRoomOf(max, l, p, i);
      HostIsMember(max, l.rooms[i]);
      AllReadyIs(l.rooms[i]);
    }
  }
}
