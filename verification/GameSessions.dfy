/** The session as the program keeps it: player objects changed in place, maps reassigned, queues
    shifted and pushed. Each method is proved to do to the whole state what its function says. */
module GameSessions {
  import opened OrderedMaps
  import opened Vectors
  import opened AntiCheat
  import opened Snapshots
  import opened Sessions

  /** One mutable player record. */
  class RuntimePlayer {
    const id: Id
    const username: string
    const position: Vec3
    const rotation: Vec3
    const velocity: Vec3
    const hp: int
    const lastProcessedInputSeq: int
    var connected: bool
    var ping: int
    var lastHeartbeatAt: int

    constructor (p: Player)
      ensures Value() == p
    {
      id, username, position, rotation, velocity := p.id, p.username, p.position, p.rotation, p.velocity;
      hp, lastProcessedInputSeq := p.hp, p.lastProcessedInputSeq;
      connected, ping, lastHeartbeatAt := p.connected, p.ping, p.lastHeartbeatAt;
    }

    /** The record as a value, copied out. */
    function Value(): Player
      reads this
    {
      Player(id, username, position, rotation, velocity, hp, connected, ping, lastProcessedInputSeq, lastHeartbeatAt)
    }
  }

  /** The values of a set of player records. */
  ghost function Values(players: OrderedMap<Id, RuntimePlayer>): OrderedMap<Id, Player>
    reads players.entries.Values
    ensures Values(players).keys == players.keys && Values(players).entries.Keys == players.entries.Keys
  {
    OrderedMap(players.keys, map id | id in players.entries :: players.entries[id].Value())
  }

  lemma ValuesAt(players: OrderedMap<Id, RuntimePlayer>, id: Id)
    requires id in players.entries
    ensures Values(players).entries[id] == players.entries[id].Value()
  {
  }

  lemma PutValues(players: OrderedMap<Id, RuntimePlayer>, id: Id, record: RuntimePlayer)
    ensures Values(Put(players, id, record)) == Put(Values(players), id, record.Value())
  {
    assert Values(Put(players, id, record)).entries == Values(players).entries[id := record.Value()];
  }

  /** No two ids share a record. */
  ghost predicate Unshared(players: map<Id, RuntimePlayer>) {
    forall a, b :: a in players && b in players && a != b ==> players[a] != players[b]
  }

  lemma PutUnshared(players: map<Id, RuntimePlayer>, id: Id, record: RuntimePlayer)
    requires Unshared(players)
    requires forall other :: other in players && other != id ==> players[other] != record
    ensures Unshared(players[id := record])
  {
  }

  lemma PutPut(m: OrderedMap<Id, Player>, id: Id, p: Player, q: Player)
    ensures Put(Put(m, id, p), id, q) == Put(m, id, q)
  {
    assert m.entries[id := p][id := q] == m.entries[id := q];
  }

  lemma PutAt(m: OrderedMap<Id, Player>, id: Id, p: Player)
    ensures id in Put(m, id, p).entries && Put(m, id, p).entries[id] == p
  {
  }

  /** Replacing a known player's record by itself or by one of nobody's. */
  lemma PutRecord(players: OrderedMap<Id, RuntimePlayer>, id: Id, record: RuntimePlayer)
    requires Unshared(players.entries) && id in players.entries
    requires record == players.entries[id] || record !in players.entries.Values
    ensures Put(players, id, record).keys == players.keys
    ensures Put(players, id, record).entries.Keys == players.entries.Keys
    ensures forall r :: r in Put(players, id, record).entries.Values ==> r == record || r in players.entries.Values
    ensures Unshared(Put(players, id, record).entries)
  {
    assert forall other :: other in players.entries ==> players.entries[other] in players.entries.Values;
    assert players.entries.Keys + {id} == players.entries.Keys;
  }

  class GameSession {
    const roomId: string
    const cfg: Config
    var players: OrderedMap<Id, RuntimePlayer>
    var previousSnapshots: OrderedMap<Id, PlayerSnapshot>
    var tick: nat
    var pendingInputs: map<Id, seq<Input>>
    var running: bool
    /** Every event emitted so far, oldest first. */
    var emitted: seq<Event>

    ghost function Model(): Session
      reads `players, `previousSnapshots, `pendingInputs, `tick, players.entries.Values
    {
      Session(Values(players), previousSnapshots, pendingInputs, tick)
    }

    ghost predicate Consistent()
      reads `players, `previousSnapshots, `pendingInputs, `tick, players.entries.Values
    {
      Unshared(players.entries) && Inv(Model())
    }

    constructor (roomId: string, cfg: Config)
      ensures Consistent() && Model() == NEW_SESSION
      ensures this.roomId == roomId && this.cfg == cfg && emitted == [] && !running
      ensures players.entries == map[]
    {
      this.roomId, this.cfg := roomId, cfg;
      players, previousSnapshots, pendingInputs := Empty(), Empty(), map[];
      tick, running, emitted := 0, false, [];
      new;
      assert Values(players) == Empty();
    }

    method Start()
      modifies this`running
      ensures running
    {
      running := true;
    }

    method Stop()
      modifies this`running
      ensures !running
    {
      running := false;
    }

    /** Changes only the fields that are changed in place. */
    method Touch(playerId: Id, connected: bool, ping: int, lastHeartbeatAt: int)
      requires Unshared(players.entries) && playerId in players.entries
      modifies players.entries[playerId]
      ensures Values(players) == Put(old(Values(players)), playerId,
                old(Values(players)).entries[playerId].(connected := connected, ping := ping,
                                                        lastHeartbeatAt := lastHeartbeatAt))
    {
      var player := players.entries[playerId];
      player.connected, player.ping, player.lastHeartbeatAt := connected, ping, lastHeartbeatAt;
      ghost var before, after := old(Values(players)), Values(players);
      forall id | id in before.entries && id != playerId
        ensures after.entries[id] == before.entries[id]
      {
        assert players.entries[id] != player;
      }
      assert after.entries == before.entries[playerId := player.Value()];
    }

    method AddPlayer(playerId: Id, username: string, now: int) returns (state: RuntimePlayer)
      requires Consistent()
      modifies this`players, this`pendingInputs, players.entries.Values
      ensures Consistent() && fresh(players.entries.Values - old(players.entries.Values))
      ensures Model() == Sessions.AddPlayer(cfg, old(Model()), playerId, username, now)
      ensures playerId in players.entries && state == players.entries[playerId]
    {
      hide Inv, CreateRuntimePlayer, Values;
      AddPlayerKeeps(cfg, Model(), playerId, username, now);
      if playerId in players.entries {
        var existing := players.entries[playerId];
        ValuesAt(players, playerId);
        Touch(playerId, true, existing.ping, now);
        return existing;
      }
      state := new RuntimePlayer(CreateRuntimePlayer(cfg, playerId, username, |players.keys|, now));
      PutValues(players, playerId, state);
      PutUnshared(players.entries, playerId, state);
      players := Put(players, playerId, state);
      pendingInputs := pendingInputs[playerId := []];
    }

    method RemovePlayer(playerId: Id)
      requires Consistent()
      modifies this`players, this`pendingInputs, this`previousSnapshots
      ensures Consistent() && players.entries.Values <= old(players.entries.Values)
      ensures Model() == Sessions.RemovePlayer(old(Model()), playerId)
    {
      hide Inv, Without;
      RemovePlayerKeeps(Model(), playerId);
      ghost var before := Values(players);
      players := Delete(players, playerId);
      pendingInputs := pendingInputs - {playerId};
      previousSnapshots := Delete(previousSnapshots, playerId);
      assert Values(players).entries == before.entries - {playerId};
    }

    method MarkDisconnected(playerId: Id)
      requires Consistent()
      modifies this`emitted, players.entries.Values
      ensures Consistent()
      ensures Model() == Sessions.MarkDisconnected(old(Model()), playerId).session
      ensures emitted == old(emitted) + Sessions.MarkDisconnected(old(Model()), playerId).events
    {
      hide Inv, Values;
      StepKeeps(cfg, Model(), MarkDisconnectedOp(playerId));
      if playerId !in players.entries {
        return;
      }
      var player := players.entries[playerId];
      ValuesAt(players, playerId);
      Touch(playerId, false, player.ping, player.lastHeartbeatAt);
      emitted := emitted + [PlayerDisconnected(playerId)];
    }

    method EnqueueInput(playerId: Id, input: Input) returns (accepted: bool)
      requires Consistent()
      modifies this`pendingInputs
      ensures Consistent()
      ensures Model() == Sessions.EnqueueInput(old(Model()), playerId, input)
      ensures accepted == (playerId in pendingInputs)
    {
      hide Inv;
      StepKeeps(cfg, Model(), EnqueueInputOp(playerId, input));
      if playerId !in pendingInputs {
        return false;
      }
      var queue := pendingInputs[playerId];
      if |queue| >= QUEUE_CAPACITY {
        queue := queue[1..];
      }
      queue := queue + [input];
      pendingInputs := pendingInputs[playerId := queue];
      accepted := true;
    }

    method Heartbeat(playerId: Id, now: int)
      requires Consistent()
      modifies players.entries.Values
      ensures Consistent()
      ensures Model() == Sessions.Heartbeat(old(Model()), playerId, now)
    {
      hide Inv, Values;
      StepKeeps(cfg, Model(), HeartbeatOp(playerId, now));
      if playerId in players.entries {
        ValuesAt(players, playerId);
        Touch(playerId, true, players.entries[playerId].ping, now);
      }
    }

    method UpdatePing(playerId: Id, ping: real)
      requires Consistent()
      modifies players.entries.Values
      ensures Consistent()
      ensures Model() == Sessions.UpdatePing(old(Model()), playerId, ping)
    {
      hide Inv, RoundedPing, Values;
      StepKeeps(cfg, Model(), UpdatePingOp(playerId, ping));
      if playerId in players.entries {
        var player := players.entries[playerId];
        ValuesAt(players, playerId);
        Touch(playerId, player.connected, RoundedPing(ping), player.lastHeartbeatAt);
      }
    }

    /** A copy of every record, in the order the players were added. */
    method TakeSnapshots() returns (snapshots: seq<PlayerSnapshot>)
      requires Valid(players)
      ensures snapshots == SnapshotsOf(players.keys, Values(players).entries)
    {
      snapshots := [];
      for i := 0 to |players.keys|
        invariant |snapshots| == i
        invariant forall k :: 0 <= k < i ==> snapshots[k] == ToPlayerSnapshot(players.entries[players.keys[k]].Value())
      {
        snapshots := snapshots + [ToPlayerSnapshot(players.entries[players.keys[i]].Value())];
      }
    }

    method BuildFullSnapshot(now: int) returns (message: Message)
      requires Consistent()
      ensures message == Sessions.BuildFullSnapshot(Model(), now)
    {
      var snapshots := TakeSnapshots();
      message := FullSnapshot(tick, now, snapshots);
    }

    /** Takes every waiting input of one player, judging each against the record the tick began
        with; each accepted one swaps in a record of its own. */
    method DrainQueue(playerId: Id, state: RuntimePlayer) returns (record: RuntimePlayer)
      requires playerId in players.entries && players.entries[playerId] == state
      requires playerId in pendingInputs
      modifies this`players, this`pendingInputs
      ensures record == state || fresh(record)
      ensures record.Value() == LastAccepted(cfg, state.Value(), old(pendingInputs)[playerId])
      ensures players == Put(old(players), playerId, record)
      ensures pendingInputs == old(pendingInputs)[playerId := []]
    {
      hide Acceptable, Moved, ValidateAndApplyMovement;
      ghost var waiting := pendingInputs[playerId];
      ghost var taken := 0;
      record := state;
      assert waiting[..0] == [];
      while |pendingInputs[playerId]| > 0
        invariant 0 <= taken <= |waiting|
        invariant pendingInputs == old(pendingInputs)[playerId := waiting[taken..]]
        invariant record == state || fresh(record)
        invariant record.Value() == LastAccepted(cfg, state.Value(), waiting[..taken])
        invariant players == Put(old(players), playerId, record)
        decreases |pendingInputs[playerId]|
      {
        var input := pendingInputs[playerId][0];
        pendingInputs := pendingInputs[playerId := pendingInputs[playerId][1..]];
        assert waiting[..taken + 1][..taken] == waiting[..taken];
        var result := ValidateAndApplyMovement(state.Value(), input, cfg.maxMoveSpeed);
        AcceptedExactlyWhen(state.Value(), input, cfg.maxMoveSpeed);
        if result.Accepted? {
          record := new RuntimePlayer(result.state);
          players := Put(players, playerId, record);
        }
        taken := taken + 1;
      }
      assert waiting[..taken] == waiting;
    }

    /** Marks a player whose heartbeat is too old as disconnected, and says so the first time. */
    method Expire(playerId: Id, now: int)
      requires Unshared(players.entries) && playerId in players.entries
      modifies this`emitted, players.entries[playerId]
      ensures Values(players) == Put(old(Values(players)), playerId,
                                     ExpireHeartbeat(cfg, old(Values(players)).entries[playerId], now))
      ensures emitted == old(emitted) + Expiry(cfg, old(Values(players)).entries[playerId], playerId, now)
    {
      var state := players.entries[playerId];
      ghost var before := Values(players);
      if now - state.lastHeartbeatAt > cfg.heartbeatTimeoutMs && state.connected {
        Touch(playerId, false, state.ping, state.lastHeartbeatAt);
        emitted := emitted + [PlayerDisconnected(playerId)];
      } else {
        assert ExpireHeartbeat(cfg, before.entries[playerId], now) == before.entries[playerId];
        assert Put(before, playerId, before.entries[playerId]) == before;
      }
    }

    /** One player's share of a tick. */
    method ExpireAndDrain(playerId: Id, now: int)
      requires Unshared(players.entries) && playerId in players.entries && playerId in pendingInputs
      modifies this`players, this`pendingInputs, this`emitted, players.entries[playerId]
      ensures players.keys == old(players.keys) && players.entries.Keys == old(players.entries.Keys)
      ensures Unshared(players.entries)
      ensures forall r :: r in players.entries.Values ==> r in old(players.entries.Values) || fresh(r)
      ensures Values(players) == Put(old(Values(players)), playerId,
                TickPlayer(cfg, old(Values(players)).entries[playerId], old(pendingInputs)[playerId], now))
      ensures pendingInputs == old(pendingInputs)[playerId := []]
      ensures emitted == old(emitted) + Expiry(cfg, old(Values(players)).entries[playerId], playerId, now)
    {
      hide LastAccepted, ExpireHeartbeat, Expiry, Values, Put, Unshared;
      var state := players.entries[playerId];
      ghost var before := Values(players);
      Expire(playerId, now);
      PutAt(before, playerId, ExpireHeartbeat(cfg, before.entries[playerId], now));
      ValuesAt(players, playerId);
      ghost var start := players;
      ghost var expired := Values(players);
      var record := DrainQueue(playerId, state);
      PutValues(start, playerId, record);
      PutPut(before, playerId, expired.entries[playerId], record.Value());
      PutRecord(start, playerId, record);
    }

    /** The first half of a tick has been done for the first `n` players of `s`, and no others. */
    ghost predicate Midway(s: Session, n: nat, now: int)
      reads this, players.entries.Values
    {
      && Valid(s.players) && s.pending.Keys == s.players.entries.Keys
      && n <= |s.players.keys| && players.keys == s.players.keys
      && previousSnapshots == s.previous && tick == s.tick
      && Unshared(players.entries)
      && Advanced(cfg, s, s.players.keys[..n], now, Values(players), pendingInputs)
    }

    /** The next player in turn. */
    method AdvanceNext(ghost s: Session, i: nat, now: int)
      requires i < |s.players.keys| && Midway(s, i, now)
      modifies this`players, this`pendingInputs, this`emitted, players.entries.Values
      ensures Midway(s, i + 1, now)
      ensures forall r :: r in players.entries.Values ==> r in old(players.entries.Values) || fresh(r)
      ensures emitted == old(emitted) + ExpiryAt(cfg, s, i, now)
    {
      hide TickPlayer, Expiry, Values, Unshared, Put, Advanced, Valid;
      ghost var keys, before, waiting := players.keys, Values(players), pendingInputs;
      NextInTurn(cfg, s, i, now, before, waiting);
      assert players.entries[keys[i]] in players.entries.Values;
      ExpireAndDrain(players.keys[i], now);
      AdvancedOneMore(cfg, s, keys, i, now, before, waiting);
    }

    /** The first half of a tick, player by player in the order they were added. */
    method AdvanceAll(now: int)
      requires Consistent()
      modifies this`players, this`pendingInputs, this`emitted, players.entries.Values
      ensures Unshared(players.entries)
      ensures forall r :: r in players.entries.Values ==> r in old(players.entries.Values) || fresh(r)
      ensures Model() == Advance(cfg, old(Model()), now).(tick := tick)
      ensures emitted == old(emitted) + Expired(cfg, old(Model()).players.entries, old(players.keys), now)
    {
      hide Advance, Advanced, Expired, ExpiredFirst, Values, Unshared, Midway, MotionAgrees, AllInWorld;
      ghost var s := Model();
      var count := |players.keys|;
      StartMidway(now);
      ExpiredFirstEnds(cfg, s, now);
      DoAdvance(s, count, now);
      EndMidway(s, now);
      AllAdvanced(cfg, s, now, Values(players), pendingInputs);
    }

    lemma StartMidway(now: int)
      requires Consistent()
      ensures Midway(Model(), 0, now)
    {
      assert players.keys[..0] == [];
    }

    lemma EndMidway(s: Session, now: int)
      requires Midway(s, |s.players.keys|, now)
      ensures Advanced(cfg, s, s.players.keys, now, Values(players), pendingInputs)
      ensures Unshared(players.entries) && previousSnapshots == s.previous && tick == s.tick
    {
      assert s.players.keys[..|s.players.keys|] == s.players.keys;
    }

    method DoAdvance(ghost s: Session, count: nat, now: int)
      requires count == |s.players.keys| && Midway(s, 0, now)
      modifies this`players, this`pendingInputs, this`emitted, players.entries.Values
      ensures Midway(s, count, now)
      ensures forall r :: r in players.entries.Values ==> r in old(players.entries.Values) || fresh(r)
      ensures emitted == old(emitted) + ExpiredFirst(cfg, s, count, now)
    {
      hide Midway, ExpiredFirst, ExpiryAt;
      ExpiredFirstSteps(cfg, s, 0, now);
      for i := 0 to count
        invariant Midway(s, i, now)
        invariant forall r :: r in players.entries.Values ==> r in old(players.entries.Values) || fresh(r)
        invariant emitted == old(emitted) + ExpiredFirst(cfg, s, i, now)
      {
        AdvanceNext(s, i, now);
        ExpiredFirstSteps(cfg, s, i, now);
      }
    }

    /** The second half of a tick: remembers the new snapshots, and emits what changed. */
    method Publish(now: int)
      requires MidTick(Model())
      modifies this`previousSnapshots, this`emitted
      ensures Model() == Sessions.Publish(old(Model()), now).session
      ensures emitted == old(emitted) + Sessions.Publish(old(Model()), now).events
    {
      hide Changes, Removed, ById, SnapshotsOf, MidTick, Valid, PutAll, DeleteAll, Values;
      MidTickKeys(players, Model());
      var snapshots := TakeSnapshots();
      var shouldFull := tick % FULL_SNAPSHOT_EVERY == 0 || |previousSnapshots.keys| == 0;
      if shouldFull {
        var message := FullSnapshot(tick, now, snapshots);
        previousSnapshots := Empty();
        Remember(snapshots);
        emitted := emitted + [SnapshotEvent(message)];
        return;
      }
      var changes, removed := ComputeDelta(previousSnapshots, snapshots);
      Forget(removed);
      Remember(snapshots);
      if |changes| == 0 && |removed| == 0 {
        return;
      }
      var message := DeltaSnapshot(tick, now, tick - 1, changes, removed);
      emitted := emitted + [SnapshotEvent(message)];
    }

    method Remember(snapshots: seq<PlayerSnapshot>)
      modifies this`previousSnapshots
      ensures previousSnapshots == PutAll(old(previousSnapshots), snapshots)
    {
      for i := 0 to |snapshots|
        invariant previousSnapshots == PutAll(old(previousSnapshots), snapshots[..i])
      {
        assert snapshots[..i + 1][..i] == snapshots[..i];
        previousSnapshots := Put(previousSnapshots, snapshots[i].id, snapshots[i]);
      }
      assert snapshots[..|snapshots|] == snapshots;
    }

    method Forget(removed: seq<Id>)
      modifies this`previousSnapshots
      ensures previousSnapshots == DeleteAll(old(previousSnapshots), removed)
    {
      for i := 0 to |removed|
        invariant previousSnapshots == DeleteAll(old(previousSnapshots), removed[..i])
      {
        assert removed[..i + 1][..i] == removed[..i];
        previousSnapshots := Delete(previousSnapshots, removed[i]);
      }
      assert removed[..|removed|] == removed;
    }

    /** The first half of a tick, its number included. */
    method FirstHalf(now: int)
      requires Consistent()
      modifies this`tick, this`players, this`pendingInputs, this`emitted, players.entries.Values
      ensures Unshared(players.entries) && fresh(players.entries.Values - old(players.entries.Values))
      ensures Model() == Advance(cfg, old(Model()), now)
      ensures emitted == old(emitted) + Expired(cfg, old(Model()).players.entries, old(players.keys), now)
    {
      hide Inv, Expired, Advance, Unshared, Values, RuntimePlayer.Value;
      ghost var s := Model();
      tick := tick + 1;
      TickNumberOnly(cfg, s, now, tick);
      assert Model() == s.(tick := tick);
      AdvanceAll(now);
    }

    /** One tick. */
    method Step(now: int)
      requires Consistent()
      modifies this`tick, this`players, this`pendingInputs, this`previousSnapshots, this`emitted, players.entries.Values
      ensures Consistent() && fresh(players.entries.Values - old(players.entries.Values))
      ensures Model() == Tick(cfg, old(Model()), now).session
      ensures emitted == old(emitted) + Tick(cfg, old(Model()), now).events
    {
      hide Inv, MidTick, Sessions.Publish, Expired, Advance, Tick, Valid, Unshared, Values, RuntimePlayer.Value;
      ghost var s := Model();
      TwoHalves(cfg, s, now);
      FirstHalf(now);
      Publish(now);
    }

    /** Any one operation, by its own method. */
    method Perform(op: Op)
      requires Consistent()
      modifies `tick, `players, `pendingInputs, `previousSnapshots, `emitted, players.entries.Values
      ensures Consistent() && fresh(players.entries.Values - old(players.entries.Values))
      ensures Model() == Sessions.Step(cfg, old(Model()), op).session
      ensures emitted == old(emitted) + Sessions.Step(cfg, old(Model()), op).events
    {
      hide Inv, Unshared, Values, Sessions.AddPlayer, Sessions.RemovePlayer, Sessions.MarkDisconnected,
           Sessions.EnqueueInput, Sessions.Heartbeat, Sessions.UpdatePing, Tick, Valid;
      match op {
        case AddPlayerOp(id, username, now) => var state := AddPlayer(id, username, now);
        case RemovePlayerOp(id) => RemovePlayer(id);
        case MarkDisconnectedOp(id) => MarkDisconnected(id);
        case EnqueueInputOp(id, input) => var accepted := EnqueueInput(id, input);
        case HeartbeatOp(id, now) => Heartbeat(id, now);
        case UpdatePingOp(id, ping) => UpdatePing(id, ping);
        case TickOp(now) => Step(now);
      }
    }
  }

  lemma TwoHalves(cfg: Config, s: Session, now: int)
    requires Inv(s)
    ensures var half := Advance(cfg, s, now);
            && MidTick(half) && Inv(Tick(cfg, s, now).session)
            && Tick(cfg, s, now).session == Publish(half, now).session
            && Tick(cfg, s, now).events ==
                 Expired(cfg, s.players.entries, s.players.keys, now) + Publish(half, now).events
  {
    hide Publish, Expired, Advance, MotionAgrees, AllInWorld;
    TickKeeps(cfg, s, now);
    AdvanceKeeps(cfg, s, now);
  }

  lemma MidTickKeys(players: OrderedMap<Id, RuntimePlayer>, s: Session)
    requires MidTick(s) && s.players == Values(players)
    ensures Valid(players) && Valid(s.players) && Valid(s.previous)
  {
  }

  lemma TickNumberOnly(cfg: Config, s: Session, now: int, t: nat)
    requires Inv(s) && t == s.tick + 1
    ensures Inv(s.(tick := t))
    ensures Advance(cfg, s.(tick := t), now).(tick := t) == Advance(cfg, s, now)
  {
  }

  /** The first half of a tick has been done for the given players, and for no other. */
  ghost predicate Advanced(cfg: Config, s: Session, done: seq<Id>, now: int, players: OrderedMap<Id, Player>,
      pending: map<Id, seq<Input>>)
  {
    && players.keys == s.players.keys
    && (forall id :: id in players.entries <==> id in s.players.entries)
    && (forall id :: id in pending <==> id in s.pending)
    && (forall id :: id in s.players.entries ==>
          players.entries[id] == if id in done then TickPlayer(cfg, s.players.entries[id], QueueOf(s, id), now)
                                 else s.players.entries[id])
    && (forall id :: id in s.pending ==> pending[id] == if id in done then [] else s.pending[id])
  }

  ghost function ExpiryAt(cfg: Config, s: Session, i: nat, now: int): seq<Event> {
    if i < |s.players.keys| && s.players.keys[i] in s.players.entries
    then Expiry(cfg, s.players.entries[s.players.keys[i]], s.players.keys[i], now) else []
  }

  /** What is said of the first `n` players in order. */
  ghost function ExpiredFirst(cfg: Config, s: Session, n: nat, now: int): seq<Event> {
    if n == 0 then [] else ExpiredFirst(cfg, s, n - 1, now) + ExpiryAt(cfg, s, n - 1, now)
  }

  lemma ExpiredFirstSteps(cfg: Config, s: Session, i: nat, now: int)
    ensures ExpiredFirst(cfg, s, 0, now) == []
    ensures ExpiredFirst(cfg, s, i + 1, now) == ExpiredFirst(cfg, s, i, now) + ExpiryAt(cfg, s, i, now)
  {
  }

  lemma {:induction false} ExpiredFirstIs(cfg: Config, s: Session, n: nat, now: int)
    requires Valid(s.players) && n <= |s.players.keys|
    ensures ExpiredFirst(cfg, s, n, now) == Expired(cfg, s.players.entries, s.players.keys[..n], now)
  {
    if n > 0 {
      ExpiredFirstIs(cfg, s, n - 1, now);
      assert s.players.keys[..n][..n - 1] == s.players.keys[..n - 1];
      assert s.players.keys[n - 1] in s.players.keys;
    }
  }

  lemma ExpiredFirstEnds(cfg: Config, s: Session, now: int)
    requires Inv(s)
    ensures ExpiredFirst(cfg, s, |s.players.keys|, now) == Expired(cfg, s.players.entries, s.players.keys, now)
  {
    ExpiredFirstIs(cfg, s, |s.players.keys|, now);
    assert s.players.keys[..|s.players.keys|] == s.players.keys;
  }

  lemma AllAdvanced(cfg: Config, s: Session, now: int, players: OrderedMap<Id, Player>, pending: map<Id, seq<Input>>)
    requires Valid(s.players) && s.pending.Keys == s.players.entries.Keys
    requires Advanced(cfg, s, s.players.keys, now, players, pending)
    ensures Advance(cfg, s, now) == Session(players, s.previous, pending, s.tick + 1)
  {
    hide TickPlayer;
    var a := Advance(cfg, s, now);
    assert players.entries == a.players.entries;
    assert pending == a.pending;
  }

  lemma NextInTurn(cfg: Config, s: Session, i: nat, now: int, before: OrderedMap<Id, Player>,
      waiting: map<Id, seq<Input>>)
    requires Valid(s.players) && s.pending.Keys == s.players.entries.Keys && i < |s.players.keys|
    requires Advanced(cfg, s, s.players.keys[..i], now, before, waiting)
    ensures var id := s.players.keys[i];
            && id !in s.players.keys[..i] && id in s.players.entries && id in s.pending
            && id in before.entries && before.entries[id] == s.players.entries[id]
            && id in waiting && waiting[id] == s.pending[id]
  {
    assert s.players.keys[i] in s.players.keys;
  }

  lemma AdvancedOneMore(cfg: Config, s: Session, keys: seq<Id>, i: nat, now: int, before: OrderedMap<Id, Player>,
      waiting: map<Id, seq<Input>>)
    requires i < |keys| && keys[i] !in keys[..i] && keys[i] in s.players.entries && keys[i] in s.pending
    requires Advanced(cfg, s, keys[..i], now, before, waiting)
    ensures Advanced(cfg, s, keys[..i + 1], now,
                     Put(before, keys[i], TickPlayer(cfg, before.entries[keys[i]], waiting[keys[i]], now)),
                     waiting[keys[i] := []])
  {
    hide TickPlayer;
    assert keys[..i + 1] == keys[..i] + [keys[i]];
  }
}
