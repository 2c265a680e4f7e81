/** What each operation of a session does to each player's own record, and who a tick disconnects. */
module SessionEffects {
  import opened OrderedMaps
  import opened Vectors
  import opened AntiCheat
  import opened Snapshots
  import opened Sessions
  import opened Replication

  // ---------- the operations between ticks ----------

  /** Nobody but `id` is touched, and neither the tick nor what was last sent. */
  ghost predicate OnlyTouches(s: Session, s': Session, id: Id) {
    && s'.tick == s.tick && s'.previous == s.previous
    && (forall q :: q != id ==> (q in s'.players.entries <==> q in s.players.entries))
    && (forall q :: q != id && q in s.players.entries ==> s'.players.entries[q] == s.players.entries[q])
    && (forall q :: q != id ==> (q in s'.pending <==> q in s.pending))
    && (forall q :: q != id && q in s.pending ==> s'.pending[q] == s.pending[q])
  }

  /** A returning player is connected again with a fresh heartbeat and keeps all else, their queue and
      their place; a new one comes last, as spawned, with an empty queue. */
  lemma AddPlayerIs(cfg: Config, s: Session, id: Id, username: string, now: int)
    ensures var s' := AddPlayer(cfg, s, id, username, now);
            && OnlyTouches(s, s', id) && id in s'.players.entries
            && var p' := s'.players.entries[id];
               && p'.connected && p'.lastHeartbeatAt == now
               && (if id in s.players.entries then
                     var p := s.players.entries[id];
                     && s'.players.keys == s.players.keys && s'.pending == s.pending
                     && p' == Player(p.id, p.username, p.position, p.rotation, p.velocity, p.hp, true, p.ping,
                                     p.lastProcessedInputSeq, now)
                   else
                     && s'.players.keys == s.players.keys + [id] && id in s'.pending && s'.pending[id] == []
                     && p'.id == id && p'.username == username && p'.hp == 100 && p'.ping == 0
                     && p'.lastProcessedInputSeq == 0 && p'.velocity == Vec3(0.0, 0.0, 0.0)
                     && p'.position == Vec3(5.0 * cfg.compass[|s.players.keys| % 8].cos, 0.0,
                                            5.0 * cfg.compass[|s.players.keys| % 8].sin))
  {
    SpawnIs(cfg, id, username, |s.players.keys|, now);
  }

  /** A removed player is in none of the three maps, and everyone else is as they were. */
  lemma RemovePlayerIs(s: Session, id: Id)
    requires Inv(s)
    ensures var s' := RemovePlayer(s, id);
            && id !in s'.players.entries && id !in s'.pending && id !in s'.previous.entries
            && id !in s'.players.keys && id !in s'.previous.keys && s'.tick == s.tick
            && (forall q :: q != id && q in s.players.entries ==>
                  q in s'.players.entries && s'.players.entries[q] == s.players.entries[q])
            && (forall q :: q != id && q in s.pending ==> q in s'.pending && s'.pending[q] == s.pending[q])
            && (forall q :: q != id && q in s.previous.entries ==>
                  q in s'.previous.entries && s'.previous.entries[q] == s.previous.entries[q])
            && (forall q :: q in s'.players.entries ==> q in s.players.entries)
  {
    WithoutMembers(s.players.keys, id);
    WithoutMembers(s.previous.keys, id);
  }

  /** A player known to the session is disconnected and announced, and nothing else about them changes;
      for a stranger nothing happens. */
  lemma MarkDisconnectedIs(s: Session, id: Id)
    ensures var o := MarkDisconnected(s, id);
            && OnlyTouches(s, o.session, id) && o.session.pending == s.pending
            && (if id in s.players.entries then
                  var p := s.players.entries[id];
                  && o.events == [PlayerDisconnected(id)] && id in o.session.players.entries
                  && o.session.players.keys == s.players.keys
                  && o.session.players.entries[id] ==
                     Player(p.id, p.username, p.position, p.rotation, p.velocity, p.hp, false, p.ping,
                            p.lastProcessedInputSeq, p.lastHeartbeatAt)
                else o.session == s && o.events == [])
  {
  }

  /** A known player's heartbeat connects them again and is remembered. */
  lemma HeartbeatIs(s: Session, id: Id, now: int)
    ensures var s' := Heartbeat(s, id, now);
            && OnlyTouches(s, s', id) && s'.pending == s.pending
            && (if id in s.players.entries then
                  var p := s.players.entries[id];
                  && id in s'.players.entries && s'.players.keys == s.players.keys
                  && s'.players.entries[id] ==
                     Player(p.id, p.username, p.position, p.rotation, p.velocity, p.hp, true, p.ping,
                            p.lastProcessedInputSeq, now)
                else s' == s)
  {
  }

  /** A known player's ping is the nearest whole number, halves upwards, or zero if that is negative. */
  lemma UpdatePingIs(s: Session, id: Id, ping: real)
    ensures var s' := UpdatePing(s, id, ping);
            && OnlyTouches(s, s', id) && s'.pending == s.pending
            && (if id in s.players.entries then
                  var p := s.players.entries[id];
                  && id in s'.players.entries && s'.players.keys == s.players.keys
                  && var p' := s'.players.entries[id];
                     && p' == Player(p.id, p.username, p.position, p.rotation, p.velocity, p.hp, p.connected, p'.ping,
                                     p.lastProcessedInputSeq, p.lastHeartbeatAt)
                     && p'.ping >= 0
                     && (ping >= -0.5 ==> p'.ping as real - 0.5 <= ping < p'.ping as real + 0.5)
                     && (ping < -0.5 ==> p'.ping == 0)
                else s' == s)
  {
  }

  /** An input goes to the end of its player's queue, which keeps the newest forty; without a queue
      nothing happens. */
  lemma EnqueueInputIs(s: Session, id: Id, input: Input)
    ensures var s' := EnqueueInput(s, id, input);
            && OnlyTouches(s, s', id) && s'.players == s.players
            && (if id in s.pending then
                  var queue := s.pending[id];
                  && id in s'.pending
                  && s'.pending[id] == (if |queue| < 40 then queue else queue[1..]) + [input]
                else s' == s)
  {
  }

  /** The live snapshot: the current tick, and everyone in the order they were added. */
  lemma LiveSnapshotIs(s: Session, now: int)
    requires Inv(s)
    ensures var m := BuildFullSnapshot(s, now);
            && m.FullSnapshot? && m.tick == s.tick && m.serverTime == now && |m.players| == |s.players.keys|
            && forall i :: 0 <= i < |m.players| ==>
                 s.players.keys[i] in s.players.entries
                 && m.players[i] == View(s.players.entries)[s.players.keys[i]]
  {
    forall i | 0 <= i < |s.players.keys|
      ensures s.players.keys[i] in s.players.entries
    {
      assert s.players.keys[i] in s.players.keys;
    }
  }

  // ---------- who a tick disconnects ----------

  /** How often a player is announced as disconnected. */
  function Announced(events: seq<Event>, id: Id): nat {
    if events == [] then 0
    else Announced(events[..|events| - 1], id) + if events[|events| - 1] == PlayerDisconnected(id) then 1 else 0
  }

  lemma {:induction false} AnnouncedAppend(a: seq<Event>, b: seq<Event>, id: Id)
    ensures Announced(a + b, id) == Announced(a, id) + Announced(b, id)
  {
    if b == [] {
      assert a + b == a;
    } else {
      assert (a + b)[..|a + b| - 1] == a + b[..|b| - 1];
      AnnouncedAppend(a, b[..|b| - 1], id);
    }
  }

  lemma {:induction false} ExpiredAnnounces(cfg: Config, players: map<Id, Player>, keys: seq<Id>, now: int, id: Id)
    requires Distinct(keys) && forall k :: k in keys ==> k in players
    ensures Announced(Expired(cfg, players, keys, now), id) ==
            if id in keys && players[id].connected && now - players[id].lastHeartbeatAt > cfg.heartbeatTimeoutMs then 1
            else 0
  {
    if keys != [] {
      var init, last := keys[..|keys| - 1], keys[|keys| - 1];
      ExpiredAnnounces(cfg, players, init, now, id);
      AnnouncedAppend(Expired(cfg, players, init, now), Expiry(cfg, players[last], last, now), id);
      assert [PlayerDisconnected(last)][..0] == [];
      assert keys == init + [last];
    }
  }

  lemma PublishAnnouncesNobody(s: Session, now: int, id: Id)
    requires Valid(s.players)
    ensures Announced(Publish(s, now).events, id) == 0
  {
    hide Changes, Removed, SnapshotsOf, PutAll, DeleteAll, ById;
    var events := Publish(s, now).events;
    if events != [] {
      assert events[..0] == [];
    }
  }

  /** A tick leaves a player connected exactly when they were and their heartbeat is within the
      timeout, announces exactly those it disconnects, once each, and keeps heartbeats and pings. */
  lemma TickDisconnects(cfg: Config, s: Session, now: int, id: Id)
    requires Inv(s) && id in s.players.entries
    ensures var o := Step(cfg, s, TickOp(now));
            && id in o.session.players.entries
            && var p, p' := s.players.entries[id], o.session.players.entries[id];
               && (p'.connected <==> p.connected && now - p.lastHeartbeatAt <= cfg.heartbeatTimeoutMs)
               && p'.lastHeartbeatAt == p.lastHeartbeatAt && p'.ping == p.ping && p'.hp == p.hp
               && Announced(o.events, id) ==
                  (if p.connected && now - p.lastHeartbeatAt > cfg.heartbeatTimeoutMs then 1 else 0)
  {
    hide Step, Inv;
    TickLinks(cfg, s, now, id);
    TickAnnounces(cfg, s, now, id);
  }

  lemma TickLinks(cfg: Config, s: Session, now: int, id: Id)
    requires Inv(s) && id in s.players.entries
    ensures var s' := Step(cfg, s, TickOp(now)).session;
            && id in s'.players.entries
            && var p, p' := s.players.entries[id], s'.players.entries[id];
               && (p'.connected <==> p.connected && now - p.lastHeartbeatAt <= cfg.heartbeatTimeoutMs)
               && p'.lastHeartbeatAt == p.lastHeartbeatAt && p'.ping == p.ping && p'.hp == p.hp
  {
    hide Publish, Expired, LastAccepted, MotionAgrees, MidTick;
    AdvanceKeeps(cfg, s, now);
    PublishKeeps(Advance(cfg, s, now), now);
    LastAcceptedKeeps(cfg, ExpireHeartbeat(cfg, s.players.entries[id], now), QueueOf(s, id));
  }

  /** A tick announces, once each, exactly those whose heartbeat it finds too old. */
  lemma TickAnnounces(cfg: Config, s: Session, now: int, id: Id)
    requires Inv(s)
    ensures Announced(Step(cfg, s, TickOp(now)).events, id) ==
            if id in s.players.entries && s.players.entries[id].connected
               && now - s.players.entries[id].lastHeartbeatAt > cfg.heartbeatTimeoutMs then 1
            else 0
  {
    hide Publish, Expired, LastAccepted, Advance, MotionAgrees, AllInWorld, Announced, MidTick;
    var a := Advance(cfg, s, now);
    AdvanceKeepsOrder(cfg, s, now);
    ExpiredAnnounces(cfg, s.players.entries, s.players.keys, now, id);
    PublishAnnouncesNobody(a, now, id);
    AnnouncedAppend(Expired(cfg, s.players.entries, s.players.keys, now), Publish(a, now).events, id);
  }

  // ---------- who stays connected over a run ----------

  /** A player's connection as told from outside: on or off, and when they were last heard of. */
  datatype Link = Link(up: bool, heardAt: int)

  function LinkAfter(timeout: int, start: Link, ops: seq<Op>, id: Id): Link {
    if ops == [] then start
    else
      var l, op := LinkAfter(timeout, start, ops[..|ops| - 1], id), ops[|ops| - 1];
      match op
      case HeartbeatOp(who, now) => if who == id then Link(true, now) else l
      case AddPlayerOp(who, _, now) => if who == id then Link(true, now) else l
      case MarkDisconnectedOp(who) => if who == id then l.(up := false) else l
      case TickOp(now) => l.(up := l.up && now - l.heardAt <= timeout)
      case _ => l
  }

  lemma StepLinks(cfg: Config, s: Session, op: Op, id: Id)
    requires Inv(s) && id in s.players.entries && op != RemovePlayerOp(id)
    ensures var s' := Step(cfg, s, op).session;
            && id in s'.players.entries
            && var p, p' := s.players.entries[id], s'.players.entries[id];
               Link(p'.connected, p'.lastHeartbeatAt) ==
               LinkAfter(cfg.heartbeatTimeoutMs, Link(p.connected, p.lastHeartbeatAt), [op], id)
  {
    hide Tick, CreateRuntimePlayer, RoundedPing, MotionAgrees, AllInWorld;
    assert [op][..0] == [];
    if op.TickOp? {
      TickDisconnects(cfg, s, op.now, id);
    }
  }

  lemma LinkOneMore(timeout: int, start: Link, init: seq<Op>, op: Op, id: Id)
    ensures LinkAfter(timeout, start, init + [op], id) ==
            LinkAfter(timeout, LinkAfter(timeout, start, init, id), [op], id)
  {
    assert (init + [op])[..|init|] == init && [op][..0] == [];
  }

  ghost predicate NeverRemoved(ops: seq<Op>, id: Id) {
    forall i :: 0 <= i < |ops| ==> ops[i] != RemovePlayerOp(id)
  }

  /** Over every run a player who is not removed is connected exactly as their heartbeats, joins,
      closes and ticks say. */
  lemma {:induction false} LinkOverRuns(cfg: Config, s: Session, ops: seq<Op>, id: Id)
    requires Inv(s) && id in s.players.entries && NeverRemoved(ops, id)
    ensures id in Run(cfg, s, ops).players.entries
    ensures var p, p' := s.players.entries[id], Run(cfg, s, ops).players.entries[id];
            Link(p'.connected, p'.lastHeartbeatAt) ==
            LinkAfter(cfg.heartbeatTimeoutMs, Link(p.connected, p.lastHeartbeatAt), ops, id)
  {
    hide Step, Inv;
    if ops != [] {
      var init, op := ops[..|ops| - 1], ops[|ops| - 1];
      LinkOverRuns(cfg, s, init, id);
      StepLinks(cfg, Run(cfg, s, init), op, id);
      var p := s.players.entries[id];
      assert ops == init + [op];
      LinkOneMore(cfg.heartbeatTimeoutMs, Link(p.connected, p.lastHeartbeatAt), init, op, id);
    }
  }

  /** When the player was last heard of: their last heartbeat or join. */
  function HeardAt(start: int, ops: seq<Op>, id: Id): int {
    if ops == [] then start
    else
      var op := ops[|ops| - 1];
      if op.HeartbeatOp? && op.id == id then op.now
      else if op.AddPlayerOp? && op.id == id then op.now
      else HeardAt(start, ops[..|ops| - 1], id)
  }

  /** At every tick the player was heard of within the timeout. */
  ghost predicate HeardInTime(timeout: int, start: int, ops: seq<Op>, id: Id) {
    forall n :: 0 <= n < |ops| && ops[n].TickOp? ==> ops[n].now - HeardAt(start, ops[..n], id) <= timeout
  }

  lemma {:induction false} LinkStaysUp(timeout: int, heard: int, ops: seq<Op>, id: Id)
    requires HeardInTime(timeout, heard, ops, id) && forall i :: 0 <= i < |ops| ==> ops[i] != MarkDisconnectedOp(id)
    ensures LinkAfter(timeout, Link(true, heard), ops, id) == Link(true, HeardAt(heard, ops, id))
  {
    if ops != [] {
      var init := ops[..|ops| - 1];
      assert forall n :: 0 <= n < |init| ==> init[n] == ops[n] && init[..n] == ops[..n];
      LinkStaysUp(timeout, heard, init, id);
    }
  }

  /** A connected player who is neither removed nor marked, and is heard of within the timeout at every
      tick, stays connected. */
  lemma StaysConnected(cfg: Config, s: Session, ops: seq<Op>, id: Id)
    requires Inv(s) && id in s.players.entries && NeverRemoved(ops, id) && s.players.entries[id].connected
    requires HeardInTime(cfg.heartbeatTimeoutMs, s.players.entries[id].lastHeartbeatAt, ops, id)
    requires forall i :: 0 <= i < |ops| ==> ops[i] != MarkDisconnectedOp(id)
    ensures id in Run(cfg, s, ops).players.entries && Run(cfg, s, ops).players.entries[id].connected
  {
    hide Inv, Run, HeardInTime, NeverRemoved;
    LinkOverRuns(cfg, s, ops, id);
    LinkStaysUp(cfg.heartbeatTimeoutMs, s.players.entries[id].lastHeartbeatAt, ops, id);
  }

  // ---------- what a tick says ----------

  /** A snapshot copies every field a client is shown. */
  lemma ViewShows(players: map<Id, Player>, id: Id)
    requires id in players
    ensures var shown, p := View(players)[id], players[id];
            && shown.id == p.id && shown.username == p.username
            && shown.position == p.position && shown.rotation == p.rotation && shown.velocity == p.velocity
            && shown.hp == p.hp && shown.connected == p.connected && shown.ping == p.ping
            && shown.lastProcessedInputSeq == p.lastProcessedInputSeq
  {
  }

  /** The first half of a tick keeps the order of the players and what was last sent. */
  lemma AdvanceKeepsOrder(cfg: Config, s: Session, now: int)
    requires Inv(s)
    ensures var a := Advance(cfg, s, now);
            && a.players.keys == s.players.keys && a.previous == s.previous && a.tick == s.tick + 1
            && PlayersValid(a.players) && MidTick(a) && DistinctIds(SnapshotsOf(a.players.keys, a.players.entries))
            && ById(SnapshotsOf(a.players.keys, a.players.entries)) == View(a.players.entries)
  {
    hide MotionAgrees, AllInWorld, LastAccepted;
    AdvanceKeeps(cfg, s, now);
    SnapshotsAreTheView(Advance(cfg, s, now).players);
    SnapshotsListed(Advance(cfg, s, now).players);
  }

  /** Nothing to tell: the delta is empty exactly when clients would be shown what they were. */
  lemma ChangesExactlyWhen(a: Session)
    requires MidTick(a) && DistinctIds(SnapshotsOf(a.players.keys, a.players.entries))
    requires ById(SnapshotsOf(a.players.keys, a.players.entries)) == View(a.players.entries)
    ensures Changes(a.previous.entries, SnapshotsOf(a.players.keys, a.players.entries)) == [] <==>
            View(a.players.entries) == a.previous.entries
  {
    hide Changes, Removed, SnapshotsOf;
    NothingRemoved(a);
    DeltaEmptyExactlyWhen(a.previous, SnapshotsOf(a.players.keys, a.players.entries));
  }

  lemma FirstShown(s: Session)
    requires Valid(s.previous)
    ensures s.previous.keys == [] <==> s.previous.entries == map[]
  {
    if s.previous.keys != [] {
      assert s.previous.keys[0] in s.previous.entries;
    } else {
      assert s.previous.entries.Keys == {};
    }
  }

  /** At every twentieth tick, and when nobody was shown before, a tick says everyone in the order they
      were added. At any other it says nothing when what clients are shown has not changed, and one
      delta when it has. */
  lemma TickSaysExactly(cfg: Config, s: Session, now: int)
    requires Inv(s)
    ensures var o := Step(cfg, s, TickOp(now));
            var said, shown := Messages(o.events), View(o.session.players.entries);
            if (s.tick + 1) % 20 == 0 || s.previous.entries == map[] then
              && |said| == 1 && said[0].FullSnapshot?
              && said[0].tick == s.tick + 1 && said[0].serverTime == now
              && |said[0].players| == |s.players.keys|
              && forall i :: 0 <= i < |s.players.keys| ==>
                   s.players.keys[i] in shown && said[0].players[i] == shown[s.players.keys[i]]
            else if shown == s.previous.entries then said == []
            else
              && |said| == 1 && said[0].DeltaSnapshot?
              && said[0].tick == s.tick + 1 && said[0].serverTime == now && said[0].baseTick == s.tick
              && said[0].removed == []
  {
    hide Changes, Messages, View, Publish, Expired, MotionAgrees, AllInWorld, SnapshotsOf, MidTick, Advance, ById;
    var a := Advance(cfg, s, now);
    TickMessages(cfg, s, now);
    AdvanceKeepsOrder(cfg, s, now);
    PublishKeeps(a, now);
    FirstShown(s);
    ChangesExactlyWhen(a);
    ListedInOrder(a.players);
  }

  lemma ListedInOrder(players: OrderedMap<Id, Player>)
    requires PlayersValid(players)
    ensures forall k :: k in players.keys ==> k in players.entries
    ensures var snapshots := SnapshotsOf(players.keys, players.entries);
            |snapshots| == |players.keys|
            && forall i :: 0 <= i < |players.keys| ==>
                 players.keys[i] in View(players.entries) && snapshots[i] == View(players.entries)[players.keys[i]]
  {
    forall i | 0 <= i < |players.keys|
      ensures players.keys[i] in players.entries
    {
      assert players.keys[i] in players.keys;
    }
  }
}
