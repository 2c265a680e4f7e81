/** A game session as a value: what each of its operations does to the players, the last-sent
    snapshots and the input queues, and what every run of operations keeps. */
module Sessions {
  import opened OrderedMaps
  import opened Vectors
  import opened AntiCheat
  import opened Snapshots

  const FULL_SNAPSHOT_EVERY: nat := 20
  const QUEUE_CAPACITY: nat := 40

  datatype Session = Session(
    players: OrderedMap<Id, Player>,
    previous: OrderedMap<Id, PlayerSnapshot>,
    pending: map<Id, seq<Input>>,
    tick: nat)

  /** What a session emits to its listeners. */
  datatype Event = SnapshotEvent(message: Message) | PlayerDisconnected(playerId: Id)

  datatype Outcome = Outcome(session: Session, events: seq<Event>)

  const NEW_SESSION := Session(Empty(), Empty(), map[], 0)

  // ---------- the operations between ticks ----------

  function AddPlayer(cfg: Config, s: Session, id: Id, username: string, now: int): Session {
    if id in s.players.entries then
      s.(players := Put(s.players, id, s.players.entries[id].(connected := true, lastHeartbeatAt := now)))
    else
      s.(players := Put(s.players, id, CreateRuntimePlayer(cfg, id, username, |s.players.keys|, now)),
         pending := s.pending[id := []])
  }

  function RemovePlayer(s: Session, id: Id): Session {
    s.(players := Delete(s.players, id), pending := s.pending - {id}, previous := Delete(s.previous, id))
  }

  function MarkDisconnected(s: Session, id: Id): Outcome {
    if id in s.players.entries then
      Outcome(s.(players := Put(s.players, id, s.players.entries[id].(connected := false))), [PlayerDisconnected(id)])
    else Outcome(s, [])
  }

  /** The queue keeps the newest inputs: a full one loses its oldest. */
  function Enqueued(queue: seq<Input>, input: Input): seq<Input> {
    (if |queue| >= QUEUE_CAPACITY then queue[1..] else queue) + [input]
  }

  function EnqueueInput(s: Session, id: Id, input: Input): Session {
    if id in s.pending then s.(pending := s.pending[id := Enqueued(s.pending[id], input)]) else s
  }

  function Heartbeat(s: Session, id: Id, now: int): Session {
    if id in s.players.entries then
      s.(players := Put(s.players, id, s.players.entries[id].(lastHeartbeatAt := now, connected := true)))
    else s
  }

  /** `Math.max(0, Math.round(ping))`. */
  function RoundedPing(ping: real): int {
    var r := (ping + 0.5).Floor;
    if r < 0 then 0 else r
  }

  function UpdatePing(s: Session, id: Id, ping: real): Session {
    if id in s.players.entries then
      s.(players := Put(s.players, id, s.players.entries[id].(ping := RoundedPing(ping))))
    else s
  }

  function SnapshotsOf(keys: seq<Id>, players: map<Id, Player>): seq<PlayerSnapshot>
    requires forall k :: k in keys ==> k in players
  {
    seq(|keys|, i requires 0 <= i < |keys| => ToPlayerSnapshot(players[keys[i]]))
  }

  function BuildFullSnapshot(s: Session, now: int): Message
    requires Valid(s.players)
  {
    FullSnapshot(s.tick, now, SnapshotsOf(s.players.keys, s.players.entries))
  }

  // ---------- the tick ----------

  function TimedOut(cfg: Config, p: Player, now: int): bool {
    now - p.lastHeartbeatAt > cfg.heartbeatTimeoutMs
  }

  function ExpireHeartbeat(cfg: Config, p: Player, now: int): Player {
    if TimedOut(cfg, p, now) then p.(connected := false) else p
  }

  /** Every queued input is judged against the same state, so the last acceptable one decides. */
  function LastAccepted(cfg: Config, state: Player, queue: seq<Input>): Player {
    if queue == [] then state
    else
      var last := queue[|queue| - 1];
      if Acceptable(state, last, cfg.maxMoveSpeed) then Moved(state, last, cfg.maxMoveSpeed)
      else LastAccepted(cfg, state, queue[..|queue| - 1])
  }

  function TickPlayer(cfg: Config, p: Player, queue: seq<Input>, now: int): Player {
    LastAccepted(cfg, ExpireHeartbeat(cfg, p, now), queue)
  }

  function QueueOf(s: Session, id: Id): seq<Input> {
    if id in s.pending then s.pending[id] else []
  }

  /** The first half of a tick: each player expires or not and takes their queue, which is emptied. */
  function Advance(cfg: Config, s: Session, now: int): Session {
    s.(tick := s.tick + 1,
       players := OrderedMap(
         s.players.keys,
         map id | id in s.players.entries :: TickPlayer(cfg, s.players.entries[id], QueueOf(s, id), now)),
       pending := map id | id in s.pending :: if id in s.players.entries then [] else s.pending[id])
  }

  /** What is said of one player whose heartbeat is too old, the first time. */
  function Expiry(cfg: Config, p: Player, id: Id, now: int): seq<Event> {
    if TimedOut(cfg, p, now) && p.connected then [PlayerDisconnected(id)] else []
  }

  function Expired(cfg: Config, players: map<Id, Player>, keys: seq<Id>, now: int): seq<Event>
    requires forall k :: k in keys ==> k in players
  {
    if keys == [] then []
    else
      var id := keys[|keys| - 1];
      Expired(cfg, players, keys[..|keys| - 1], now) + Expiry(cfg, players[id], id, now)
  }

  function PutAll(m: OrderedMap<Id, PlayerSnapshot>, snapshots: seq<PlayerSnapshot>): OrderedMap<Id, PlayerSnapshot> {
    if snapshots == [] then m
    else Put(PutAll(m, snapshots[..|snapshots| - 1]), snapshots[|snapshots| - 1].id, snapshots[|snapshots| - 1])
  }

  /** The second half of a tick: a full snapshot, a delta, or nothing. */
  function Publish(s: Session, now: int): Outcome
    requires Valid(s.players)
  {
    var snapshots := SnapshotsOf(s.players.keys, s.players.entries);
    if s.tick % FULL_SNAPSHOT_EVERY == 0 || s.previous.keys == [] then
      Outcome(s.(previous := PutAll(Empty(), snapshots)),
              [SnapshotEvent(FullSnapshot(s.tick, now, snapshots))])
    else
      var changes := Changes(s.previous.entries, snapshots);
      var removed := Removed(s.previous.keys, ById(snapshots));
      var s' := s.(previous := PutAll(DeleteAll(s.previous, removed), snapshots));
      if changes == [] && removed == [] then Outcome(s', [])
      else Outcome(s', [SnapshotEvent(DeltaSnapshot(s.tick, now, s.tick - 1, changes, removed))])
  }

  function Tick(cfg: Config, s: Session, now: int): Outcome
    requires Valid(s.players)
  {
    var o := Publish(Advance(cfg, s, now), now);
    Outcome(o.session, Expired(cfg, s.players.entries, s.players.keys, now) + o.events)
  }

  // ---------- runs ----------

  datatype Op =
    | AddPlayerOp(id: Id, username: string, now: int)
    | RemovePlayerOp(id: Id)
    | MarkDisconnectedOp(id: Id)
    | EnqueueInputOp(id: Id, input: Input)
    | HeartbeatOp(id: Id, now: int)
    | UpdatePingOp(id: Id, ping: real)
    | TickOp(now: int)

  function Step(cfg: Config, s: Session, op: Op): Outcome
    requires Valid(s.players)
  {
    match op
    case AddPlayerOp(id, username, now) => Outcome(AddPlayer(cfg, s, id, username, now), [])
    case RemovePlayerOp(id) => Outcome(RemovePlayer(s, id), [])
    case MarkDisconnectedOp(id) => MarkDisconnected(s, id)
    case EnqueueInputOp(id, input) => Outcome(EnqueueInput(s, id, input), [])
    case HeartbeatOp(id, now) => Outcome(Heartbeat(s, id, now), [])
    case UpdatePingOp(id, ping) => Outcome(UpdatePing(s, id, ping), [])
    case TickOp(now) => Tick(cfg, s, now)
  }

  /** The fields only a tick may change. */
  ghost predicate SameMotion(p: Player, snap: PlayerSnapshot) {
    && p.username == snap.username
    && p.position == snap.position
    && p.rotation == snap.rotation
    && p.velocity == snap.velocity
    && p.hp == snap.hp
    && p.lastProcessedInputSeq == snap.lastProcessedInputSeq
  }

  ghost predicate PlayersValid(players: OrderedMap<Id, Player>) {
    && Valid(players)
    && forall id :: id in players.entries ==> players.entries[id].id == id
  }

  ghost predicate AllInWorld(players: map<Id, Player>) {
    forall id :: id in players ==> InBox(players[id].position, WORLD_BOUNDS)
  }

  ghost predicate MotionAgrees(players: map<Id, Player>, previous: map<Id, PlayerSnapshot>) {
    forall id :: id in previous && id in players ==> SameMotion(players[id], previous[id])
  }

  /** What every reachable session satisfies. */
  ghost predicate Inv(s: Session) {
    && PlayersValid(s.players)
    && AllInWorld(s.players.entries)
    && Valid(s.previous)
    && KeyedById(s.previous.entries)
    && s.pending.Keys == s.players.entries.Keys
    && s.previous.entries.Keys <= s.players.entries.Keys
    && MotionAgrees(s.players.entries, s.previous.entries)
  }

  lemma NewSessionInv()
    ensures Inv(NEW_SESSION)
  {
  }

  /** The players as a client should see them. */
  function View(players: map<Id, Player>): map<Id, PlayerSnapshot> {
    map id | id in players :: ToPlayerSnapshot(players[id])
  }

  lemma {:induction false} PutAllEntries(m: OrderedMap<Id, PlayerSnapshot>, snapshots: seq<PlayerSnapshot>)
    requires Valid(m)
    ensures Valid(PutAll(m, snapshots))
    ensures PutAll(m, snapshots).entries == m.entries + ById(snapshots)
  {
    if snapshots == [] {
      assert m.entries + map[] == m.entries;
    } else {
      var init, last := snapshots[..|snapshots| - 1], snapshots[|snapshots| - 1];
      PutAllEntries(m, init);
      PutValid(PutAll(m, init), last.id, last);
      UnionUpdate(m.entries, ById(init), last);
    }
  }

  lemma UnionUpdate(a: map<Id, PlayerSnapshot>, b: map<Id, PlayerSnapshot>, last: PlayerSnapshot)
    ensures (a + b)[last.id := last] == a + b[last.id := last]
  {
  }

  lemma SnapshotsListed(players: OrderedMap<Id, Player>)
    requires PlayersValid(players)
    ensures var snapshots := SnapshotsOf(players.keys, players.entries);
            && DistinctIds(snapshots)
            && (forall id :: id in players.entries ==> ToPlayerSnapshot(players.entries[id]) in snapshots)
            && (forall p :: p in snapshots ==> p.id in players.entries)
  {
    var keys := players.keys;
    var snapshots := SnapshotsOf(keys, players.entries);
    assert forall i :: 0 <= i < |keys| ==> keys[i] in keys && snapshots[i].id == keys[i];
    forall id | id in players.entries
      ensures ToPlayerSnapshot(players.entries[id]) in snapshots
    {
      var i :| 0 <= i < |keys| && keys[i] == id;
      assert snapshots[i] == ToPlayerSnapshot(players.entries[id]);
    }
  }

  lemma SnapshotsAreTheView(players: OrderedMap<Id, Player>)
    requires PlayersValid(players)
    ensures DistinctIds(SnapshotsOf(players.keys, players.entries))
    ensures ById(SnapshotsOf(players.keys, players.entries)) == View(players.entries)
  {
    hide SnapshotsOf, ById;
    var snapshots := SnapshotsOf(players.keys, players.entries);
    SnapshotsListed(players);
    ByIdMembers(snapshots);
    forall id | id in players.entries
      ensures id in ById(snapshots) && ById(snapshots)[id] == ToPlayerSnapshot(players.entries[id])
    {
      assert ToPlayerSnapshot(players.entries[id]).id == id;
    }
    assert forall id :: id in ById(snapshots) ==> ById(snapshots)[id].id == id;
  }

  /** A tick keeps who is present, and who is where in the order. */
  lemma {:induction false} LastAcceptedKeeps(cfg: Config, p: Player, queue: seq<Input>)
    requires InBox(p.position, WORLD_BOUNDS)
    ensures var r := LastAccepted(cfg, p, queue);
            && r.id == p.id && r.username == p.username && r.hp == p.hp
            && r.connected == p.connected && r.ping == p.ping && r.lastHeartbeatAt == p.lastHeartbeatAt
            && InBox(r.position, WORLD_BOUNDS)
  {
    if queue != [] {
      var last := queue[|queue| - 1];
      if Acceptable(p, last, cfg.maxMoveSpeed) {
        AcceptedStepIsShort(p, last, cfg.maxMoveSpeed);
      } else {
        LastAcceptedKeeps(cfg, p, queue[..|queue| - 1]);
      }
    }
  }

  /** The state between the two halves of a tick: all of the invariant but the agreement with what
      was last sent, of which only the usernames are left. */
  ghost predicate MidTick(s: Session) {
    && PlayersValid(s.players)
    && AllInWorld(s.players.entries)
    && Valid(s.previous)
    && KeyedById(s.previous.entries)
    && s.pending.Keys == s.players.entries.Keys
    && s.previous.entries.Keys <= s.players.entries.Keys
    && UsernamesAgree(s.previous.entries, View(s.players.entries))
  }

  lemma TickPlayerKeeps(cfg: Config, p: Player, queue: seq<Input>, now: int)
    requires InBox(p.position, WORLD_BOUNDS)
    ensures var r := TickPlayer(cfg, p, queue, now);
            r.id == p.id && r.username == p.username && r.hp == p.hp && InBox(r.position, WORLD_BOUNDS)
  {
    LastAcceptedKeeps(cfg, ExpireHeartbeat(cfg, p, now), queue);
  }

  lemma AdvancePlayers(cfg: Config, s: Session, now: int)
    requires PlayersValid(s.players) && AllInWorld(s.players.entries)
    ensures PlayersValid(Advance(cfg, s, now).players) && AllInWorld(Advance(cfg, s, now).players.entries)
    ensures forall id :: id in s.players.entries ==>
                           Advance(cfg, s, now).players.entries[id].username == s.players.entries[id].username
  {
    var a := Advance(cfg, s, now).players;
    assert a.keys == s.players.keys && a.entries.Keys == s.players.entries.Keys;
    forall id | id in s.players.entries
      ensures a.entries[id].id == id && InBox(a.entries[id].position, WORLD_BOUNDS)
      ensures a.entries[id].username == s.players.entries[id].username
    {
      TickPlayerKeeps(cfg, s.players.entries[id], QueueOf(s, id), now);
    }
  }

  lemma AdvanceKeeps(cfg: Config, s: Session, now: int)
    requires Inv(s)
    ensures MidTick(Advance(cfg, s, now))
  {
    AdvancePlayers(cfg, s, now);
    assert UsernamesAgree(s.previous.entries, View(s.players.entries));
  }

  /** Nothing is ever removed by a delta: the session forgets a leaver at once. */
  lemma NothingRemoved(s: Session)
    requires MidTick(s)
    ensures Removed(s.previous.keys, ById(SnapshotsOf(s.players.keys, s.players.entries))) == []
  {
    SnapshotsAreTheView(s.players);
    RemovedMembers(s.previous.keys, View(s.players.entries));
  }

  lemma PutAllReplaces(m: OrderedMap<Id, PlayerSnapshot>, snapshots: seq<PlayerSnapshot>)
    requires Valid(m) && m.entries.Keys <= ById(snapshots).Keys
    ensures Valid(PutAll(m, snapshots))
    ensures PutAll(m, snapshots).entries == ById(snapshots)
  {
    PutAllEntries(m, snapshots);
  }

  lemma PublishedPrevious(s: Session, now: int)
    requires MidTick(s)
    ensures Valid(Publish(s, now).session.previous)
    ensures Publish(s, now).session.previous.entries == View(s.players.entries)
  {
    var snapshots := SnapshotsOf(s.players.keys, s.players.entries);
    SnapshotsAreTheView(s.players);
    NothingRemoved(s);
    PutAllReplaces(Empty(), snapshots);
    PutAllReplaces(s.previous, snapshots);
  }

  /** After a tick the session remembers exactly what it just showed. */
  lemma PublishKeeps(s: Session, now: int)
    requires MidTick(s)
    ensures Inv(Publish(s, now).session)
    ensures Publish(s, now).session == s.(previous := Publish(s, now).session.previous)
  {
    PublishedPrevious(s, now);
  }

  lemma TickKeeps(cfg: Config, s: Session, now: int)
    requires Inv(s)
    ensures Inv(Tick(cfg, s, now).session)
    ensures Tick(cfg, s, now).session.previous.entries == View(Tick(cfg, s, now).session.players.entries)
  {
    AdvanceKeeps(cfg, s, now);
    PublishKeeps(Advance(cfg, s, now), now);
    PublishedPrevious(Advance(cfg, s, now), now);
  }

  lemma TouchKeeps(s: Session, id: Id, p: Player)
    requires Inv(s) && id in s.players.entries
    requires p == s.players.entries[id].(connected := p.connected, ping := p.ping, lastHeartbeatAt := p.lastHeartbeatAt)
    ensures Inv(s.(players := Put(s.players, id, p)))
  {
    PutValid(s.players, id, p);
  }

  lemma NewcomerKeeps(s: Session, id: Id, p: Player)
    requires Inv(s) && id !in s.players.entries
    requires p.id == id && InBox(p.position, WORLD_BOUNDS)
    ensures Inv(s.(players := Put(s.players, id, p), pending := s.pending[id := []]))
  {
    hide InBox;
    PutValid(s.players, id, p);
  }

  lemma AddPlayerKeeps(cfg: Config, s: Session, id: Id, username: string, now: int)
    requires Inv(s)
    ensures Inv(AddPlayer(cfg, s, id, username, now))
  {
    hide Inv, InBox;
    if id in s.players.entries {
      TouchKeeps(s, id, s.players.entries[id].(connected := true, lastHeartbeatAt := now));
    } else {
      SpawnInsideWorld(cfg, id, username, |s.players.keys|, now);
      NewcomerKeeps(s, id, CreateRuntimePlayer(cfg, id, username, |s.players.keys|, now));
    }
  }

  lemma RemovePlayerKeeps(s: Session, id: Id)
    requires Inv(s)
    ensures Inv(RemovePlayer(s, id))
  {
    DeleteValid(s.players, id);
    DeleteValid(s.previous, id);
  }

  /** Every operation keeps the invariant. */
  lemma StepKeeps(cfg: Config, s: Session, op: Op)
    requires Inv(s)
    ensures Inv(Step(cfg, s, op).session)
  {
    match op
    case AddPlayerOp(id, username, now) => AddPlayerKeeps(cfg, s, id, username, now);
    case RemovePlayerOp(id) => RemovePlayerKeeps(s, id);
    case TickOp(now) => TickKeeps(cfg, s, now);
    case EnqueueInputOp(id, input) =>
    case MarkDisconnectedOp(id) =>
      if id in s.players.entries {
        TouchKeeps(s, id, s.players.entries[id].(connected := false));
      }
    case HeartbeatOp(id, now) =>
      if id in s.players.entries {
        TouchKeeps(s, id, s.players.entries[id].(lastHeartbeatAt := now, connected := true));
      }
    case UpdatePingOp(id, ping) =>
      if id in s.players.entries {
        TouchKeeps(s, id, s.players.entries[id].(ping := RoundedPing(ping)));
      }
  }

  /** The session a run of operations leads to. */
  ghost function Run(cfg: Config, s: Session, ops: seq<Op>): Session
    requires Inv(s)
    ensures Inv(Run(cfg, s, ops))
  {
    if ops == [] then s
    else
      var before := Run(cfg, s, ops[..|ops| - 1]);
      StepKeeps(cfg, before, ops[|ops| - 1]);
      Step(cfg, before, ops[|ops| - 1]).session
  }

  function TicksIn(ops: seq<Op>): nat {
    if ops == [] then 0 else TicksIn(ops[..|ops| - 1]) + (if ops[|ops| - 1].TickOp? then 1 else 0)
  }
}
