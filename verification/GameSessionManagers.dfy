/** The manager of the running sessions: one session object for each room, shared by all who ask. */
module GameSessionManagers {
  import opened OrderedMaps
  import opened AntiCheat
  import opened Sessions
  import opened GameSessions

  type Table = map<string, GameSession>

  /** Two sessions have no player's record in common. */
  ghost predicate Apart(s: GameSession, t: GameSession)
    reads s`players, t`players
  {
    s.players.entries.Values !! t.players.entries.Values
  }

  /** Each room has a session of its own, which shares no player's record with another; all the
      records are among those given. */
  ghost predicate OneEach(cfg: Config, table: Table, records: set<RuntimePlayer>)
    reads table.Values`players, table.Values`previousSnapshots, table.Values`pendingInputs, table.Values`tick, records
  {
    && (forall room :: room in table ==> table[room].roomId == room && table[room].cfg == cfg)
    && (forall room :: room in table ==> table[room].players.entries.Values <= records)
    && (forall room :: room in table ==> table[room].Consistent())
    && (forall a, b :: a in table && b in table && a != b ==> Apart(table[a], table[b]))
  }

  /** The state of every session. */
  ghost function Models(table: Table, records: set<RuntimePlayer>): (models: map<string, Session>)
    requires forall room :: room in table ==> table[room].players.entries.Values <= records
    reads table.Values`players, table.Values`previousSnapshots, table.Values`pendingInputs, table.Values`tick, records
    ensures models.Keys == table.Keys
  {
    map room | room in table :: table[room].Model()
  }

  class GameSessionManager {
    const cfg: Config
    var sessions: Table
    ghost var records: set<RuntimePlayer>

    ghost predicate Consistent()
      reads this, sessions.Values`players, sessions.Values`previousSnapshots, sessions.Values`pendingInputs,
          sessions.Values`tick, records
    {
      OneEach(cfg, sessions, records)
    }

    ghost function Model(): (models: map<string, Session>)
      requires Consistent()
      reads this, sessions.Values`players, sessions.Values`previousSnapshots, sessions.Values`pendingInputs,
          sessions.Values`tick, records
      ensures models.Keys == sessions.Keys
    {
      Models(sessions, records)
    }

    constructor (cfg: Config)
      ensures Consistent() && sessions == map[] && records == {} && this.cfg == cfg
    {
      this.cfg := cfg;
      sessions, records := map[], {};
    }

    /** Starts a session for a room that has none. */
    method Create(roomId: string) returns (session: GameSession)
      requires Consistent() && roomId !in sessions
      modifies this`sessions
      ensures Consistent() && sessions == old(sessions)[roomId := session]
      ensures fresh(session) && session.running && session.emitted == []
      ensures Model() == old(Model())[roomId := NEW_SESSION]
    {
      hide OneEach, Models, GameSession.Consistent, GameSession.Model;
      TableRecords(cfg, sessions, records);
      session := new GameSession(roomId, cfg);
      session.Start();
      PutIn(cfg, sessions, records, session);
      sessions := sessions[roomId := session];
      assert records + session.players.entries.Values == records;
    }

    /** A room's session, the same one until it is destroyed; the first to ask has it started. */
    method GetOrCreate(roomId: string) returns (session: GameSession)
      requires Consistent()
      modifies this`sessions
      ensures Consistent()
      ensures sessions == old(sessions)[roomId := session]
      ensures roomId in old(sessions) ==> session == old(sessions)[roomId] && sessions == old(sessions)
      ensures roomId !in old(sessions) ==> fresh(session) && session.running && session.emitted == []
      ensures Model() == old(Model())[roomId := if roomId in old(sessions) then old(Model())[roomId] else NEW_SESSION]
    {
      hide OneEach, Models;
      TableRecords(cfg, sessions, records);
      if roomId in sessions {
        SameModels(sessions, records, roomId);
        return sessions[roomId];
      }
      session := Create(roomId);
    }

    /** The one running session of the room, if it has any. */
    method Get(roomId: string) returns (session: GameSession?)
      requires Consistent()
      ensures session == null <==> roomId !in Model()
      ensures session != null ==>
        && session in sessions.Values && session.roomId == roomId && session.cfg == cfg
        && session.Consistent() && session.Model() == Model()[roomId]
      ensures forall s :: s in sessions.Values && s.roomId == roomId ==> s == session
    {
      hide GameSession.Consistent, GameSession.Model, Apart;
      session := if roomId in sessions then sessions[roomId] else null;
    }

    method Destroy(roomId: string)
      requires Consistent()
      modifies this, sessions.Values`running
      ensures Consistent()
      ensures sessions == old(sessions) - {roomId} && Model() == old(Model()) - {roomId}
      ensures roomId in old(sessions) ==> !old(sessions)[roomId].running
      ensures forall room :: room in sessions ==> sessions[room].running == old(sessions[room].running)
    {
      hide OneEach, Models;
      if roomId !in sessions {
        assert sessions - {roomId} == sessions && Model() - {roomId} == Model();
        return;
      }
      TakeOut(cfg, sessions, records, roomId);
      var session := sessions[roomId];
      session.Stop();
      sessions := sessions - {roomId};
      records := records - session.players.entries.Values;
    }
  }

  lemma TableRecords(cfg: Config, table: Table, records: set<RuntimePlayer>)
    requires OneEach(cfg, table, records)
    ensures forall room :: room in table ==> table[room].players.entries.Values <= records
    ensures forall room :: room in table ==> table[room].roomId == room && table[room].cfg == cfg
  {
    hide GameSession.Consistent, Apart;
  }

  lemma SameModels(table: Table, records: set<RuntimePlayer>, room: string)
    requires forall r :: r in table ==> table[r].players.entries.Values <= records
    requires room in table
    ensures Models(table, records)[room := Models(table, records)[room]] == Models(table, records)
  {
    hide GameSession.Model;
  }

  lemma MoreModels(table: Table, records: set<RuntimePlayer>, all: set<RuntimePlayer>, session: GameSession)
    requires forall r :: r in table ==> table[r].players.entries.Values <= records <= all
    requires session.players.entries.Values <= all
    ensures Models(table[session.roomId := session], all) == Models(table, records)[session.roomId := session.Model()]
  {
    hide GameSession.Model;
  }

  /** A session with records of its own goes into the table under its room. */
  lemma PutIn(cfg: Config, table: Table, records: set<RuntimePlayer>, session: GameSession)
    requires OneEach(cfg, table, records) && session.Consistent() && session.cfg == cfg
    requires session.players.entries.Values !! records && session.roomId !in table
    ensures var more, all := table[session.roomId := session], records + session.players.entries.Values;
            && OneEach(cfg, more, all)
            && Models(more, all) == Models(table, records)[session.roomId := session.Model()]
  {
    hide GameSession.Consistent, Models, Apart;
    MoreModels(table, records, records + session.players.entries.Values, session);
    forall room | room in table
      ensures Apart(table[room], session) && Apart(session, table[room])
    {
      ApartFrom(table[room], session, records);
    }
  }

  lemma ApartFrom(s: GameSession, t: GameSession, records: set<RuntimePlayer>)
    requires s.players.entries.Values <= records && t.players.entries.Values !! records
    ensures Apart(s, t) && Apart(t, s)
  {
  }

  /** What the other rooms hold is apart from one room's records. */
  lemma RestRecords(cfg: Config, table: Table, records: set<RuntimePlayer>, room: string)
    requires OneEach(cfg, table, records) && room in table
    ensures forall r :: r in table && r != room ==>
              table[r].players.entries.Values <= records - table[room].players.entries.Values && table[r] != table[room]
  {
    hide GameSession.Consistent, Apart;
    forall r | r in table && r != room
      ensures table[r].players.entries.Values <= records - table[room].players.entries.Values
    {
      ApartRecords(table[r], table[room]);
    }
  }

  lemma RestModels(table: Table, records: set<RuntimePlayer>, rest: set<RuntimePlayer>, room: string)
    requires forall r :: r in table ==> table[r].players.entries.Values <= records
    requires forall r :: r in table && r != room ==> table[r].players.entries.Values <= rest
    ensures Models(table - {room}, rest) == Models(table, records) - {room}
  {
    hide GameSession.Model;
  }

  /** A room's session taken out of the table takes its records with it. */
  lemma TakeOut(cfg: Config, table: Table, records: set<RuntimePlayer>, room: string)
    requires OneEach(cfg, table, records) && room in table
    ensures var less, rest := table - {room}, records - table[room].players.entries.Values;
            && OneEach(cfg, less, rest)
            && table[room] !in less.Values
            && Models(less, rest) == Models(table, records) - {room}
  {
    hide GameSession.Consistent, Models, Apart;
    RestRecords(cfg, table, records, room);
    RestModels(table, records, records - table[room].players.entries.Values, room);
  }

  lemma ApartRecords(s: GameSession, t: GameSession)
    requires Apart(s, t)
    ensures s.players.entries.Values !! t.players.entries.Values
  {
  }

  /** The sessions after one of them, if the room has one, has done an operation. */
  ghost function Applied(cfg: Config, models: map<string, Session>, room: string, op: Op): map<string, Session>
    requires room in models ==> Inv(models[room])
  {
    if room in models then models[room := Step(cfg, models[room], op).session] else models
  }

  /** A session in the table does one operation: its state changes so, and no other session's does. */
  method Perform(manager: GameSessionManager, session: GameSession, op: Op)
    requires manager.Consistent() && session.roomId in manager.sessions && manager.sessions[session.roomId] == session
    modifies manager`records
    modifies session`tick, session`players, session`pendingInputs, session`previousSnapshots, session`emitted
    modifies session.players.entries.Values
    ensures manager.Consistent()
    ensures Inv(old(manager.Model())[session.roomId])
    ensures manager.Model() == Applied(manager.cfg, old(manager.Model()), session.roomId, op)
    ensures session.emitted == old(session.emitted) + Step(manager.cfg, old(manager.Model())[session.roomId], op).events
  {
    hide OneEach, Models, Step, GameSession.Consistent, GameSession.Model, Inv;
    ghost var table, records, room := manager.sessions, manager.records, session.roomId;
    SessionOf(manager.cfg, table, records, room);
    TakeOut(manager.cfg, table, records, room);
    ghost var less, rest := table - {room}, records - session.players.entries.Values;
    PerformApart(less, rest, session, op);
    PutIn(manager.cfg, less, rest, session);
    assert less[room := session] == table;
    manager.records := rest + session.players.entries.Values;
  }

  /** An operation of one session leaves sessions that are apart from it alone. */
  method PerformApart(ghost less: Table, ghost rest: set<RuntimePlayer>, session: GameSession, op: Op)
    requires OneEach(session.cfg, less, rest) && session !in less.Values
    requires session.Consistent() && session.players.entries.Values !! rest
    modifies session`tick, session`players, session`pendingInputs, session`previousSnapshots, session`emitted
    modifies session.players.entries.Values
    ensures OneEach(session.cfg, less, rest) && Models(less, rest) == old(Models(less, rest))
    ensures session.Consistent() && session.players.entries.Values !! rest && Inv(old(session.Model()))
    ensures session.Model() == Step(session.cfg, old(session.Model()), op).session
    ensures session.emitted == old(session.emitted) + Step(session.cfg, old(session.Model()), op).events
  {
    hide OneEach, Models, Step, GameSession.Model, Inv, Unshared;
    TableRecords(session.cfg, less, rest);
    session.Perform(op);
  }

  /** A message or a tick for a room: its session, if there is one, does the operation. */
  method PerformIn(manager: GameSessionManager, roomId: string, op: Op)
    requires manager.Consistent()
    modifies manager`records
    modifies manager.sessions.Values`tick, manager.sessions.Values`players, manager.sessions.Values`pendingInputs
    modifies manager.sessions.Values`previousSnapshots, manager.sessions.Values`emitted, manager.records
    ensures manager.Consistent() && manager.sessions == old(manager.sessions)
    ensures roomId in old(manager.Model()) ==> Inv(old(manager.Model())[roomId])
    ensures manager.Model() == Applied(manager.cfg, old(manager.Model()), roomId, op)
  {
    hide OneEach, Models, Step, GameSession.Consistent, GameSession.Model, Inv;
    var session := manager.Get(roomId);
    if session != null {
      SessionOf(manager.cfg, manager.sessions, manager.records, roomId);
      Perform(manager, session, op);
    }
  }

  /** A join's use of the manager: whoever else is in the room, the player goes into the one session
      it has, and no other session changes. */
  method Admit(manager: GameSessionManager, roomId: string, playerId: Id, username: string, now: int)
    requires manager.Consistent()
    modifies manager`sessions, manager`records
    modifies manager.sessions.Values`tick, manager.sessions.Values`players, manager.sessions.Values`pendingInputs
    modifies manager.sessions.Values`previousSnapshots, manager.sessions.Values`emitted, manager.records
    ensures manager.Consistent()
    ensures var was := if roomId in old(manager.Model()) then old(manager.Model())[roomId] else NEW_SESSION;
            manager.Model() == old(manager.Model())[roomId := AddPlayer(manager.cfg, was, playerId, username, now)]
  {
    hide OneEach, Models, AddPlayer, GameSession.Consistent, GameSession.Model, Inv;
    var session := manager.GetOrCreate(roomId);
    SessionOf(manager.cfg, manager.sessions, manager.records, roomId);
    Perform(manager, session, AddPlayerOp(playerId, username, now));
  }

  lemma SessionOf(cfg: Config, table: Table, records: set<RuntimePlayer>, room: string)
    requires OneEach(cfg, table, records) && room in table
    ensures table[room].Consistent() && table[room].cfg == cfg && table[room].roomId == room
    ensures table[room].players.entries.Values <= records && Models(table, records)[room] == table[room].Model()
    ensures Inv(Models(table, records)[room])
  {
    hide GameSession.Model, Inv, Unshared;
  }
}
