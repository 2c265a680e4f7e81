/** The claim the delta protocol exists for: over every run of a session, a client that applies
    the messages it hears holds what the server holds. */
module Replication {
  import opened OrderedMaps
  import opened Vectors
  import opened AntiCheat
  import opened Snapshots
  import opened Sessions

  /** A session, the mirror of one listening client, and the ids removed from the session since
      that client last heard a full snapshot. */
  datatype Watch = Watch(session: Session, mirror: Mirror, gone: set<Id>)

  function Messages(events: seq<Event>): seq<Message> {
    if events == [] then []
    else
      var last := events[|events| - 1];
      Messages(events[..|events| - 1]) + (if last.SnapshotEvent? then [last.message] else [])
  }

  function ReceiveAll(mirror: Mirror, messages: seq<Message>): Mirror {
    if messages == [] then mirror
    else Receive(ReceiveAll(mirror, messages[..|messages| - 1]), messages[|messages| - 1])
  }

  function HasFull(messages: seq<Message>): bool {
    exists i :: 0 <= i < |messages| && messages[i].FullSnapshot?
  }

  /** One operation of the session, heard by the client. */
  function Hear(cfg: Config, w: Watch, op: Op): Watch
    requires Valid(w.session.players)
  {
    var o := Step(cfg, w.session, op);
    var messages := Messages(o.events);
    Watch(o.session,
          ReceiveAll(w.mirror, messages),
          if op.RemovePlayerOp? then w.gone + {op.id} else if HasFull(messages) then {} else w.gone)
  }

  ghost function HearRun(cfg: Config, w: Watch, ops: seq<Op>): Watch
    requires Inv(w.session)
    ensures HearRun(cfg, w, ops).session == Run(cfg, w.session, ops)
  {
    if ops == [] then w else Hear(cfg, HearRun(cfg, w, ops[..|ops| - 1]), ops[|ops| - 1])
  }

  /** The client holds exactly the session's last-sent snapshots, and otherwise only leavers. */
  ghost predicate Exact(w: Watch) {
    && MirrorKeyed(w.mirror)
    && (forall id :: id in w.session.previous.entries ==>
                       id in w.mirror && w.mirror[id] == FullPatch(w.session.previous.entries[id]))
    && (forall id :: id in w.mirror ==> id in w.session.previous.entries || id in w.gone)
  }

  /** Two records agree on everything but `connected` and `ping`, which both name. */
  ghost predicate AgreeButForLink(held: PlayerPatch, p: PlayerSnapshot) {
    && held.connected.Some?
    && held.ping.Some?
    && held == FullPatch(p).(connected := held.connected, ping := held.ping)
  }

  /** The client holds the last-sent snapshots but perhaps for `connected` and `ping`, and
      otherwise only players who are present or have left. */
  ghost predicate Tracks(w: Watch) {
    && MirrorKeyed(w.mirror)
    && (forall id :: id in w.session.previous.entries ==>
                       id in w.mirror && AgreeButForLink(w.mirror[id], w.session.previous.entries[id]))
    && (forall id :: id in w.mirror ==> id in w.session.players.entries || id in w.gone)
  }

  // ---------- what a tick says ----------

  lemma {:induction false} MessagesAppend(a: seq<Event>, b: seq<Event>)
    ensures Messages(a + b) == Messages(a) + Messages(b)
  {
    if b == [] {
      assert a + b == a;
    } else {
      assert (a + b)[..|a + b| - 1] == a + b[..|b| - 1];
      MessagesAppend(a, b[..|b| - 1]);
    }
  }

  lemma {:induction false} ExpiredSaysNothing(cfg: Config, players: map<Id, Player>, keys: seq<Id>, now: int)
    requires forall k :: k in keys ==> k in players
    ensures Messages(Expired(cfg, players, keys, now)) == []
  {
    if keys != [] {
      var id, init := keys[|keys| - 1], keys[..|keys| - 1];
      ExpiredSaysNothing(cfg, players, init, now);
      MessagesAppend(Expired(cfg, players, init, now), Expiry(cfg, players[id], id, now));
    }
  }

  lemma OneMessage(m: Message)
    ensures Messages([SnapshotEvent(m)]) == [m]
  {
    assert [SnapshotEvent(m)][..0] == [];
  }

  lemma ReceiveOne(m: Message, mirror: Mirror)
    ensures ReceiveAll(mirror, [m]) == Receive(mirror, m)
    ensures HasFull([m]) <==> m.FullSnapshot?
  {
    hide Receive;
    assert [m][..0] == [];
    assert [m][0] == m;
  }

  /** The tick shows everyone in full: on every twentieth tick, and when nobody was shown before. */
  ghost predicate FullTick(s: Session) {
    (s.tick + 1) % FULL_SNAPSHOT_EVERY == 0 || s.previous.keys == []
  }

  /** What a tick says: everyone in full, or the changes since the last tick, if there are any. */
  ghost function Said(full: bool, tick: nat, now: int, snapshots: seq<PlayerSnapshot>,
      changes: seq<PlayerPatch>): seq<Message> {
    if full then [FullSnapshot(tick, now, snapshots)]
    else if changes == [] then []
    else [DeltaSnapshot(tick, now, tick - 1, changes, [])]
  }

  lemma PublishMessages(s: Session, now: int)
    requires MidTick(s)
    ensures var snapshots := SnapshotsOf(s.players.keys, s.players.entries);
            Messages(Publish(s, now).events) ==
            Said(s.tick % FULL_SNAPSHOT_EVERY == 0 || s.previous.keys == [], s.tick, now, snapshots,
                 Changes(s.previous.entries, snapshots))
  {
    hide Changes, SnapshotsOf, ById, PutAll, DeleteAll;
    NothingRemoved(s);
    var events := Publish(s, now).events;
    if events != [] {
      OneMessage(events[0].message);
    }
  }

  lemma TickMessages(cfg: Config, s: Session, now: int)
    requires Inv(s)
    ensures var a := Advance(cfg, s, now);
            var snapshots := SnapshotsOf(a.players.keys, a.players.entries);
            Messages(Tick(cfg, s, now).events) ==
            Said(FullTick(s), s.tick + 1, now, snapshots, Changes(s.previous.entries, snapshots))
  {
    hide Publish, Said, Expired, MidTick, Changes;
    AdvanceKeeps(cfg, s, now);
    PublishMessages(Advance(cfg, s, now), now);
    MessagesAppend(Expired(cfg, s.players.entries, s.players.keys, now), Publish(Advance(cfg, s, now), now).events);
    ExpiredSaysNothing(cfg, s.players.entries, s.players.keys, now);
  }

  lemma ReceiveSaid(full: bool, tick: nat, now: int, snapshots: seq<PlayerSnapshot>, changes: seq<PlayerPatch>,
      mirror: Mirror)
    ensures var said := Said(full, tick, now, snapshots, changes);
            && (HasFull(said) <==> full)
            && ReceiveAll(mirror, said) == if full then MirrorOf(ById(snapshots)) else PatchAll(mirror, changes)
  {
    var said := Said(full, tick, now, snapshots, changes);
    if said != [] {
      ReceiveOne(said[0], mirror);
    }
    assert mirror - ToSet([]) == mirror;
  }

  /** What the client holds after a tick: everyone afresh, or its mirror with the delta merged. */
  lemma TickHeard(cfg: Config, w: Watch, now: int)
    requires Inv(w.session)
    ensures var players := Advance(cfg, w.session, now).players;
            var w' := Hear(cfg, w, TickOp(now));
            && Inv(w'.session)
            && w'.session.previous.entries == View(players.entries)
            && w'.session.players == players
            && w'.session.tick == w.session.tick + 1
            && w'.gone == (if FullTick(w.session) then {} else w.gone)
            && w'.mirror == if FullTick(w.session) then MirrorOf(View(players.entries))
                            else PatchAll(w.mirror,
                                          Changes(w.session.previous.entries,
                                                  SnapshotsOf(players.keys, players.entries)))
  {
    hide Said, Publish, Changes, MirrorOf, View, PatchAll, Messages, ReceiveAll, HasFull, SnapshotsOf, ById;
    var a := Advance(cfg, w.session, now);
    var snapshots := SnapshotsOf(a.players.keys, a.players.entries);
    TickMessages(cfg, w.session, now);
    ReceiveSaid(FullTick(w.session), a.tick, now, snapshots, Changes(w.session.previous.entries, snapshots), w.mirror);
    AdvanceKeeps(cfg, w.session, now);
    PublishKeeps(a, now);
    PublishedPrevious(a, now);
    SnapshotsAreTheView(a.players);
  }

  lemma QuietStep(cfg: Config, w: Watch, op: Op)
    requires Inv(w.session) && !op.TickOp?
    ensures Messages(Step(cfg, w.session, op).events) == []
    ensures Hear(cfg, w, op).mirror == w.mirror
    ensures Hear(cfg, w, op).gone == if op.RemovePlayerOp? then w.gone + {op.id} else w.gone
    ensures Hear(cfg, w, op).session.tick == w.session.tick
    ensures !op.RemovePlayerOp? ==> Hear(cfg, w, op).session.previous == w.session.previous
  {
    var events := Step(cfg, w.session, op).events;
    if events != [] {
      assert events[..0] == [];
    }
    assert Messages(events) == [];
  }

  // ---------- a client that started from a broadcast full snapshot ----------

  lemma DeltaKeepsExact(mirror: Mirror, gone: set<Id>, prev: map<Id, PlayerSnapshot>, cur: map<Id, PlayerSnapshot>,
      r: Mirror)
    requires KeyedById(cur) && UsernamesAgree(prev, cur) && prev.Keys <= cur.Keys && MirrorKeyed(mirror)
    requires forall id :: id in prev ==> id in mirror && mirror[id] == FullPatch(prev[id]) && prev[id].id == id
    requires forall id :: id in mirror ==> id in prev || id in gone
    requires BroughtUpToDate(r, mirror, prev, cur)
    ensures MirrorKeyed(r)
    ensures forall id :: id in cur ==> id in r && r[id] == FullPatch(cur[id])
    ensures forall id :: id in r ==> id in cur || id in gone
  {
    forall id | id in cur
      ensures r[id] == FullPatch(cur[id])
    {
      UpdatedWhenExact(mirror, prev, cur[id]);
    }
  }

  lemma TickKeepsExact(cfg: Config, w: Watch, now: int)
    requires Inv(w.session)
    requires Exact(w) || FullTick(w.session)
    ensures Exact(Hear(cfg, w, TickOp(now)))
  {
    hide Hear, Advance, Changes, SnapshotsOf, PatchAll, ById, BroughtUpToDate, AllInWorld, MotionAgrees;
    var w' := Hear(cfg, w, TickOp(now));
    var a := Advance(cfg, w.session, now);
    TickHeard(cfg, w, now);
    AdvanceKeeps(cfg, w.session, now);
    if !FullTick(w.session) {
      AdvanceKeepsPrevious(cfg, w.session, now);
      SnapshotsAreTheView(a.players);
      PatchedByDelta(w.mirror, w.session.previous.entries, SnapshotsOf(a.players.keys, a.players.entries));
      DeltaKeepsExact(w.mirror, w.gone, w.session.previous.entries, View(a.players.entries), w'.mirror);
    }
  }

  lemma AdvanceKeepsPrevious(cfg: Config, s: Session, now: int)
    ensures Advance(cfg, s, now).previous == s.previous
  {
  }

  lemma UpdatedWhenExact(mirror: Mirror, prev: map<Id, PlayerSnapshot>, cur: PlayerSnapshot)
    requires cur.id in prev ==>
               && cur.id in mirror
               && mirror[cur.id] == FullPatch(prev[cur.id])
               && prev[cur.id].username == cur.username
    ensures Updated(mirror, prev, cur) == FullPatch(cur)
  {
    if cur.id in prev {
      MergeDiff(prev[cur.id], cur);
    }
  }

  /** Every operation keeps an exact mirror exact. */
  lemma StepKeepsExact(cfg: Config, w: Watch, op: Op)
    requires Inv(w.session) && Exact(w)
    ensures Exact(Hear(cfg, w, op))
  {
    if op.TickOp? {
      TickKeepsExact(cfg, w, op.now);
    } else {
      QuietStep(cfg, w, op);
      if op.RemovePlayerOp? {
        assert Hear(cfg, w, op).session.previous.entries == w.session.previous.entries - {op.id};
      }
    }
  }

  /** Over every run, a client that starts exact stays exact, whatever joins, leaves, inputs and
      silent ticks the run holds. */
  lemma {:induction false} RunKeepsExact(cfg: Config, w: Watch, ops: seq<Op>)
    requires Inv(w.session) && Exact(w)
    ensures Exact(HearRun(cfg, w, ops))
  {
    if ops != [] {
      RunKeepsExact(cfg, w, ops[..|ops| - 1]);
      StepKeepsExact(cfg, HearRun(cfg, w, ops[..|ops| - 1]), ops[|ops| - 1]);
    }
  }

  ghost predicate NoRemovals(ops: seq<Op>) {
    forall i :: 0 <= i < |ops| ==> !ops[i].RemovePlayerOp?
  }

  lemma {:induction false} NobodyGone(cfg: Config, w: Watch, ops: seq<Op>)
    requires Inv(w.session) && w.gone == {} && NoRemovals(ops)
    ensures HearRun(cfg, w, ops).gone == {}
  {
    if ops != [] {
      NobodyGone(cfg, w, ops[..|ops| - 1]);
      var before, op := HearRun(cfg, w, ops[..|ops| - 1]), ops[|ops| - 1];
      assert !op.RemovePlayerOp?;
    }
  }

  /** Without removals an exact client holds the last-sent snapshots and nothing else: over every
      run from a broadcast full snapshot, at every tick, silent ones included. */
  lemma MirrorIsLastSent(cfg: Config, w: Watch, now: int, ops: seq<Op>)
    requires Inv(w.session) && FullTick(w.session) && NoRemovals(ops)
    ensures var start := Hear(cfg, w, TickOp(now));
            && Inv(start.session)
            && HearRun(cfg, start, ops).mirror == MirrorOf(HearRun(cfg, start, ops).session.previous.entries)
  {
    hide Hear, HearRun, Exact;
    var start := Hear(cfg, w, TickOp(now));
    TickHeard(cfg, w, now);
    TickKeepsExact(cfg, w, now);
    RunKeepsExact(cfg, start, ops);
    NobodyGone(cfg, start, ops);
    ExactIsEqual(HearRun(cfg, start, ops));
  }

  // ---------- a client that asked for a snapshot between ticks ----------

  /** Asking for the live state at any moment starts a client tracking. */
  lemma LiveSnapshotTracks(s: Session, mirror: Mirror, now: int)
    requires Inv(s)
    ensures Receive(mirror, BuildFullSnapshot(s, now)) == MirrorOf(View(s.players.entries))
    ensures Tracks(Watch(s, Receive(mirror, BuildFullSnapshot(s, now)), {}))
  {
    SnapshotsAreTheView(s.players);
  }

  lemma ExactTracks(w: Watch)
    requires Inv(w.session) && Exact(w)
    ensures Tracks(w)
  {
  }

  lemma UpdatedWhenTracking(mirror: Mirror, prev: map<Id, PlayerSnapshot>, cur: PlayerSnapshot)
    requires cur.id in prev ==>
               && cur.id in mirror
               && AgreeButForLink(mirror[cur.id], prev[cur.id])
               && prev[cur.id].username == cur.username
    ensures AgreeButForLink(Updated(mirror, prev, cur), cur)
  {
  }

  lemma DeltaKeepsTracking(mirror: Mirror, prev: map<Id, PlayerSnapshot>, cur: map<Id, PlayerSnapshot>, r: Mirror)
    requires KeyedById(cur) && UsernamesAgree(prev, cur) && prev.Keys <= cur.Keys && MirrorKeyed(mirror)
    requires forall id :: id in prev ==> id in mirror && AgreeButForLink(mirror[id], prev[id]) && prev[id].id == id
    requires BroughtUpToDate(r, mirror, prev, cur)
    ensures MirrorKeyed(r)
    ensures forall id :: id in cur ==> id in r && AgreeButForLink(r[id], cur[id])
    ensures forall id :: id in r ==> id in cur || id in mirror
  {
    forall id | id in cur
      ensures AgreeButForLink(r[id], cur[id])
    {
      UpdatedWhenTracking(mirror, prev, cur[id]);
    }
  }

  lemma TickKeepsTracking(cfg: Config, w: Watch, now: int)
    requires Inv(w.session) && Tracks(w)
    ensures Tracks(Hear(cfg, w, TickOp(now)))
  {
    hide Hear, Advance, Changes, SnapshotsOf, PatchAll, ById, BroughtUpToDate, AllInWorld, MotionAgrees;
    var w' := Hear(cfg, w, TickOp(now));
    var a := Advance(cfg, w.session, now);
    TickHeard(cfg, w, now);
    if FullTick(w.session) {
      TickKeepsExact(cfg, w, now);
      ExactTracks(w');
    } else {
      AdvanceKeeps(cfg, w.session, now);
      AdvanceKeepsPrevious(cfg, w.session, now);
      AdvanceKeepsWho(cfg, w.session, now);
      SnapshotsAreTheView(a.players);
      PatchedByDelta(w.mirror, w.session.previous.entries, SnapshotsOf(a.players.keys, a.players.entries));
      DeltaKeepsTracking(w.mirror, w.session.previous.entries, View(a.players.entries), w'.mirror);
    }
  }

  lemma AdvanceKeepsWho(cfg: Config, s: Session, now: int)
    ensures Advance(cfg, s, now).players.entries.Keys == s.players.entries.Keys
  {
  }

  /** Every operation keeps a tracking client tracking. */
  lemma StepKeepsTracking(cfg: Config, w: Watch, op: Op)
    requires Inv(w.session) && Tracks(w)
    ensures Tracks(Hear(cfg, w, op))
  {
    if op.TickOp? {
      TickKeepsTracking(cfg, w, op.now);
    } else {
      QuietStep(cfg, w, op);
      if op.RemovePlayerOp? {
        assert Hear(cfg, w, op).session.previous.entries == w.session.previous.entries - {op.id};
      }
    }
  }

  lemma {:induction false} RunKeepsTracking(cfg: Config, w: Watch, ops: seq<Op>)
    requires Inv(w.session) && Tracks(w)
    ensures Tracks(HearRun(cfg, w, ops))
  {
    if ops != [] {
      RunKeepsTracking(cfg, w, ops[..|ops| - 1]);
      StepKeepsTracking(cfg, HearRun(cfg, w, ops[..|ops| - 1]), ops[|ops| - 1]);
    }
  }

  /** What is held of a player names every field, and all but `connected` and `ping` are right. */
  ghost predicate ShowsButForLink(held: PlayerPatch, p: Player) {
    && held.id == p.id
    && held.username == Some(p.username)
    && held.position == Some(p.position)
    && held.rotation == Some(p.rotation)
    && held.velocity == Some(p.velocity)
    && held.hp == Some(p.hp)
    && held.lastProcessedInputSeq == Some(p.lastProcessedInputSeq)
    && held.connected.Some? && held.ping.Some?
  }

  /** The client agrees with the server on who is present, and on every field of each of them but
      `connected` and `ping`. */
  ghost predicate AgreesWithServer(mirror: Mirror, players: map<Id, Player>) {
    && (forall id :: id in mirror <==> id in players)
    && (forall id :: id in players ==> ShowsButForLink(mirror[id], players[id]))
  }

  /** Over every run without removals, a client that took the live state at any moment agrees with
      the server after every later tick. */
  lemma LateClientAgrees(cfg: Config, s: Session, mirror: Mirror, joined: int, ops: seq<Op>, now: int)
    requires Inv(s) && NoRemovals(ops)
    ensures var start := Watch(s, Receive(mirror, BuildFullSnapshot(s, joined)), {});
            var end := Hear(cfg, HearRun(cfg, start, ops), TickOp(now));
            AgreesWithServer(end.mirror, end.session.players.entries)
  {
    hide Hear, HearRun, Advance, Changes, Receive, BuildFullSnapshot, AgreesWithServer, MotionAgrees, AllInWorld;
    var start := Watch(s, Receive(mirror, BuildFullSnapshot(s, joined)), {});
    LiveSnapshotTracks(s, mirror, joined);
    var before := HearRun(cfg, start, ops);
    RunKeepsTracking(cfg, start, ops);
    NobodyGone(cfg, start, ops);
    AgreesOnceTicked(cfg, before, now);
  }

  lemma AgreesOnceTicked(cfg: Config, w: Watch, now: int)
    requires Inv(w.session) && Tracks(w) && w.gone == {}
    ensures var end := Hear(cfg, w, TickOp(now));
            AgreesWithServer(end.mirror, end.session.players.entries)
  {
    hide Hear, Advance, Changes, Tracks, AgreesWithServer, MotionAgrees, AllInWorld, MirrorOf, PatchAll, View,
         SnapshotsOf;
    TickHeard(cfg, w, now);
    TickKeepsTracking(cfg, w, now);
    ShownAgrees(Hear(cfg, w, TickOp(now)));
  }

  /** A tracking client agrees with a server that has just shown everyone as they are. */
  lemma ShownAgrees(w: Watch)
    requires Tracks(w) && w.gone == {} && w.session.previous.entries == View(w.session.players.entries)
    ensures AgreesWithServer(w.mirror, w.session.players.entries)
  {
    assert forall id :: id in w.session.players.entries ==> id in w.session.previous.entries;
  }

  lemma {:induction false} TickCount(cfg: Config, w: Watch, ops: seq<Op>)
    requires Inv(w.session)
    ensures HearRun(cfg, w, ops).session.tick == w.session.tick + TicksIn(ops)
  {
    hide Hear;
    if ops != [] {
      TickCount(cfg, w, ops[..|ops| - 1]);
      var before, op := HearRun(cfg, w, ops[..|ops| - 1]), ops[|ops| - 1];
      if op.TickOp? {
        TickHeard(cfg, before, op.now);
      } else {
        QuietStep(cfg, before, op);
      }
    }
  }

  /** Passing a tick whose number is a multiple of twenty makes a tracking client exact. */
  lemma {:induction false} ExactAfterFullTick(cfg: Config, w: Watch, ops: seq<Op>, t: nat)
    requires Inv(w.session) && Tracks(w)
    requires w.session.tick < t <= w.session.tick + TicksIn(ops) && t % FULL_SNAPSHOT_EVERY == 0
    ensures Exact(HearRun(cfg, w, ops))
  {
    hide Hear, Exact, Tracks, Run, AllInWorld, MotionAgrees;
    var init, op := ops[..|ops| - 1], ops[|ops| - 1];
    var before := HearRun(cfg, w, init);
    if t <= w.session.tick + TicksIn(init) {
      ExactAfterFullTick(cfg, w, init, t);
      StepKeepsExact(cfg, before, op);
    } else {
      TickCount(cfg, w, init);
      TickKeepsExact(cfg, before, op.now);
    }
  }

  /** Twenty ticks after any moment a tracking client is exact: nothing is stale, and it holds no
      id but those shown and those removed since the last full snapshot. */
  lemma ExactWithinTwentyTicks(cfg: Config, w: Watch, ops: seq<Op>)
    requires Inv(w.session) && Tracks(w)
    requires TicksIn(ops) >= 20
    ensures Exact(HearRun(cfg, w, ops))
  {
    var t := (w.session.tick / FULL_SNAPSHOT_EVERY + 1) * FULL_SNAPSHOT_EVERY;
    ExactAfterFullTick(cfg, w, ops, t);
  }

  lemma {:induction false} GoneAfterFullTick(cfg: Config, w: Watch, ops: seq<Op>, t: nat)
    requires Inv(w.session) && NoRemovals(ops)
    requires w.session.tick < t <= w.session.tick + TicksIn(ops) && t % FULL_SNAPSHOT_EVERY == 0
    ensures HearRun(cfg, w, ops).gone == {}
  {
    hide Hear, Run, Inv;
    var init, op := ops[..|ops| - 1], ops[|ops| - 1];
    var before := HearRun(cfg, w, init);
    assert !op.RemovePlayerOp?;
    RunKeeps(cfg, w, init);
    if t <= w.session.tick + TicksIn(init) {
      GoneAfterFullTick(cfg, w, init, t);
      StaysGone(cfg, before, op);
    } else {
      TickCount(cfg, w, init);
      FullTickClears(cfg, before, op.now);
    }
  }

  lemma RunKeeps(cfg: Config, w: Watch, ops: seq<Op>)
    requires Inv(w.session)
    ensures Inv(HearRun(cfg, w, ops).session)
  {
    hide Inv, HearRun;
  }

  lemma FullTickClears(cfg: Config, w: Watch, now: int)
    requires Inv(w.session) && (w.session.tick + 1) % FULL_SNAPSHOT_EVERY == 0
    ensures Hear(cfg, w, TickOp(now)).gone == {}
  {
    hide Hear, Advance, Changes, MirrorOf, View, PatchAll, SnapshotsOf, AllInWorld, MotionAgrees;
    TickHeard(cfg, w, now);
  }

  lemma StaysGone(cfg: Config, w: Watch, op: Op)
    requires Inv(w.session) && w.gone == {} && !op.RemovePlayerOp?
    ensures Hear(cfg, w, op).gone == {}
  {
    hide Step, Receive, Messages;
  }

  /** After twenty ticks without a removal a tracking client holds the last-sent snapshots and
      nothing else, whoever had left before. */
  lemma LeaversClearedWithinTwentyTicks(cfg: Config, w: Watch, ops: seq<Op>)
    requires Inv(w.session) && Tracks(w) && NoRemovals(ops)
    requires TicksIn(ops) >= 20
    ensures HearRun(cfg, w, ops).mirror == MirrorOf(HearRun(cfg, w, ops).session.previous.entries)
  {
    hide Hear, HearRun, Exact, Tracks, MotionAgrees, AllInWorld;
    ExactWithinTwentyTicks(cfg, w, ops);
    GoneAfterFullTick(cfg, w, ops, (w.session.tick / FULL_SNAPSHOT_EVERY + 1) * FULL_SNAPSHOT_EVERY);
    ExactIsEqual(HearRun(cfg, w, ops));
  }

  // ---------- what the messages themselves promise ----------

  /** No session ever emits a delta that removes anybody or says nothing. */
  lemma DeltasRemoveNobody(cfg: Config, s: Session, op: Op, m: Message)
    requires Inv(s)
    ensures m in Messages(Step(cfg, s, op).events) && m.DeltaSnapshot? ==>
              m.removed == [] && m.changes != [] && m.baseTick == s.tick && m.tick == s.tick + 1
  {
    hide Tick, Messages, Advance, Changes;
    if op.TickOp? {
      TickMessages(cfg, s, op.now);
    } else {
      QuietStep(cfg, Watch(s, map[], {}), op);
    }
  }

  ghost predicate NoTicks(ops: seq<Op>) {
    forall i :: 0 <= i < |ops| ==> !ops[i].TickOp?
  }

  lemma {:induction false} QuietRun(cfg: Config, w: Watch, ops: seq<Op>)
    requires Inv(w.session) && NoTicks(ops) && NoRemovals(ops)
    ensures var w' := HearRun(cfg, w, ops);
            && w'.mirror == w.mirror && w'.gone == w.gone
            && w'.session.previous == w.session.previous && w'.session.tick == w.session.tick
  {
    hide Hear;
    if ops != [] {
      QuietRun(cfg, w, ops[..|ops| - 1]);
      var op := ops[|ops| - 1];
      assert !op.TickOp? && !op.RemovePlayerOp?;
      QuietStep(cfg, HearRun(cfg, w, ops[..|ops| - 1]), op);
    }
  }

  /** The base tick of a delta names the state the client holds, the one shown at the tick before,
      however long ago that client last heard anything. */
  lemma BaseTickIsHeld(cfg: Config, w: Watch, shown: int, ops: seq<Op>, now: int, m: Message)
    requires Inv(w.session) && Exact(w) && w.gone == {} && NoTicks(ops) && NoRemovals(ops)
    ensures var atBase := Hear(cfg, w, TickOp(shown));
            && Inv(atBase.session)
            && var sent := Messages(Step(cfg, HearRun(cfg, atBase, ops).session, TickOp(now)).events);
               (m in sent && m.DeltaSnapshot? ==>
                  && m.baseTick == atBase.session.tick
                  && HearRun(cfg, atBase, ops).mirror == MirrorOf(View(atBase.session.players.entries)))
  {
    hide Hear, HearRun, Step, Messages;
    var atBase := Hear(cfg, w, TickOp(shown));
    TickHeard(cfg, w, shown);
    TickKeepsExact(cfg, w, shown);
    QuietRun(cfg, atBase, ops);
    DeltasRemoveNobody(cfg, HearRun(cfg, atBase, ops).session, TickOp(now), m);
    ExactIsEqual(atBase);
  }

  lemma ExactIsEqual(w: Watch)
    requires Exact(w) && w.gone == {}
    ensures w.mirror == MirrorOf(w.session.previous.entries)
  {
  }
}
