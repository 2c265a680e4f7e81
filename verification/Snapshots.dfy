/** What a session tells its listeners about the players, the delta between two such reports, and
    the mirror a client keeps by applying what it receives. */
module Snapshots {
  import opened OrderedMaps
  import opened Vectors
  import opened AntiCheat

  datatype PlayerSnapshot = PlayerSnapshot(
    id: Id,
    username: string,
    position: Vec3,
    rotation: Vec3,
    velocity: Vec3,
    hp: int,
    connected: bool,
    ping: int,
    lastProcessedInputSeq: int)

  /** A snapshot of which any field but the id may be missing. */
  datatype PlayerPatch = PlayerPatch(
    id: Id,
    username: Option<string>,
    position: Option<Vec3>,
    rotation: Option<Vec3>,
    velocity: Option<Vec3>,
    hp: Option<int>,
    connected: Option<bool>,
    ping: Option<int>,
    lastProcessedInputSeq: Option<int>)

  datatype Message =
    | FullSnapshot(tick: nat, serverTime: int, players: seq<PlayerSnapshot>)
    | DeltaSnapshot(tick: nat, serverTime: int, baseTick: int, changes: seq<PlayerPatch>, removed: seq<Id>)

  function ToPlayerSnapshot(p: Player): PlayerSnapshot {
    PlayerSnapshot(p.id, p.username, p.position, p.rotation, p.velocity, p.hp, p.connected, p.ping,
                   p.lastProcessedInputSeq)
  }

  function FullPatch(p: PlayerSnapshot): PlayerPatch {
    PlayerPatch(p.id, Some(p.username), Some(p.position), Some(p.rotation), Some(p.velocity), Some(p.hp),
                Some(p.connected), Some(p.ping), Some(p.lastProcessedInputSeq))
  }

  function EmptyPatch(id: Id): PlayerPatch {
    PlayerPatch(id, None, None, None, None, None, None, None, None)
  }

  /** `new Map(current.map((player) => [player.id, player]))`: the last of two equal ids wins. */
  function ById(current: seq<PlayerSnapshot>): map<Id, PlayerSnapshot> {
    if current == [] then map[]
    else ById(current[..|current| - 1])[current[|current| - 1].id := current[|current| - 1]]
  }

  function IfChanged<T(==)>(before: T, after: T): Option<T> {
    if before == after then None else Some(after)
  }

  /** The patch from one snapshot of a player to the next; a username is never compared. */
  function Diff(prev: PlayerSnapshot, cur: PlayerSnapshot): PlayerPatch {
    PlayerPatch(cur.id,
                None,
                IfChanged(prev.position, cur.position),
                IfChanged(prev.rotation, cur.rotation),
                IfChanged(prev.velocity, cur.velocity),
                IfChanged(prev.hp, cur.hp),
                IfChanged(prev.connected, cur.connected),
                IfChanged(prev.ping, cur.ping),
                IfChanged(prev.lastProcessedInputSeq, cur.lastProcessedInputSeq))
  }

  function ChangesFor(prev: map<Id, PlayerSnapshot>, cur: PlayerSnapshot): seq<PlayerPatch> {
    if cur.id !in prev then [FullPatch(cur)]
    else if Diff(prev[cur.id], cur) == EmptyPatch(cur.id) then []
    else [Diff(prev[cur.id], cur)]
  }

  function Changes(prev: map<Id, PlayerSnapshot>, current: seq<PlayerSnapshot>): seq<PlayerPatch> {
    if current == [] then []
    else Changes(prev, current[..|current| - 1]) + ChangesFor(prev, current[|current| - 1])
  }

  function Removed(ids: seq<Id>, current: map<Id, PlayerSnapshot>): seq<Id> {
    if ids == [] then []
    else Removed(ids[..|ids| - 1], current) + (if ids[|ids| - 1] in current then [] else [ids[|ids| - 1]])
  }

  predicate Differs(a: Vec3, b: Vec3)
    ensures Differs(a, b) <==> a != b
  {
    a.x != b.x || a.y != b.y || a.z != b.z
  }

  method DiffPlayer(prev: PlayerSnapshot, player: PlayerSnapshot) returns (patch: PlayerPatch, dirty: bool)
    ensures patch == Diff(prev, player)
    ensures dirty <==> patch != EmptyPatch(player.id)
  {
    patch, dirty := EmptyPatch(player.id), false;
    if Differs(prev.position, player.position) {
      patch, dirty := patch.(position := Some(player.position)), true;
    }
    if Differs(prev.rotation, player.rotation) {
      patch, dirty := patch.(rotation := Some(player.rotation)), true;
    }
    if Differs(prev.velocity, player.velocity) {
      patch, dirty := patch.(velocity := Some(player.velocity)), true;
    }
    if prev.hp != player.hp {
      patch, dirty := patch.(hp := Some(player.hp)), true;
    }
    if prev.connected != player.connected {
      patch, dirty := patch.(connected := Some(player.connected)), true;
    }
    if prev.ping != player.ping {
      patch, dirty := patch.(ping := Some(player.ping)), true;
    }
    if prev.lastProcessedInputSeq != player.lastProcessedInputSeq {
      patch, dirty := patch.(lastProcessedInputSeq := Some(player.lastProcessedInputSeq)), true;
    }
  }

  method ComputeDelta(previous: OrderedMap<Id, PlayerSnapshot>, current: seq<PlayerSnapshot>)
    returns (changes: seq<PlayerPatch>, removed: seq<Id>)
    requires Valid(previous)
    ensures changes == Changes(previous.entries, current)
    ensures removed == Removed(previous.keys, ById(current))
  {
    var currentMap := ById(current);
    changes, removed := [], [];

    for i := 0 to |previous.keys|
      invariant removed == Removed(previous.keys[..i], currentMap)
    {
      assert previous.keys[..i + 1][..i] == previous.keys[..i];
      var id := previous.keys[i];
      if id !in currentMap {
        removed := removed + [id];
      }
    }
    assert previous.keys[..|previous.keys|] == previous.keys;

    for i := 0 to |current|
      invariant changes == Changes(previous.entries, current[..i])
    {
      assert current[..i + 1][..i] == current[..i];
      var player := current[i];
      if player.id !in previous.entries {
        changes := changes + [FullPatch(player)];
        continue;
      }
      var prev := previous.entries[player.id];
      var patch, dirty := DiffPlayer(prev, player);
      if dirty {
        changes := changes + [patch];
      }
    }
    assert current[..|current|] == current;
  }

  // ---------- the client ----------

  /** What a client holds: for each id, the fields it has been told so far. */
  type Mirror = map<Id, PlayerPatch>

  function Latest<T>(old_: Option<T>, new_: Option<T>): Option<T> {
    if new_.Some? then new_ else old_
  }

  function Merge(held: PlayerPatch, patch: PlayerPatch): PlayerPatch {
    PlayerPatch(patch.id,
                Latest(held.username, patch.username),
                Latest(held.position, patch.position),
                Latest(held.rotation, patch.rotation),
                Latest(held.velocity, patch.velocity),
                Latest(held.hp, patch.hp),
                Latest(held.connected, patch.connected),
                Latest(held.ping, patch.ping),
                Latest(held.lastProcessedInputSeq, patch.lastProcessedInputSeq))
  }

  function Patch1(mirror: Mirror, c: PlayerPatch): Mirror {
    mirror[c.id := if c.id in mirror then Merge(mirror[c.id], c) else c]
  }

  function PatchAll(mirror: Mirror, changes: seq<PlayerPatch>): Mirror {
    if changes == [] then mirror
    else Patch1(PatchAll(mirror, changes[..|changes| - 1]), changes[|changes| - 1])
  }

  function ToSet(ids: seq<Id>): set<Id> {
    set id | id in ids
  }

  /** A mirror that knows every field of every given snapshot. */
  function MirrorOf(snapshots: map<Id, PlayerSnapshot>): Mirror {
    map id | id in snapshots :: FullPatch(snapshots[id])
  }

  function ApplyDelta(mirror: Mirror, changes: seq<PlayerPatch>, removed: seq<Id>): Mirror {
    PatchAll(mirror - ToSet(removed), changes)
  }

  /** A snapshot replaces the mirror; a delta drops what left and merges each patch. */
  function Receive(mirror: Mirror, m: Message): Mirror {
    match m
    case FullSnapshot(_, _, players) => MirrorOf(ById(players))
    case DeltaSnapshot(_, _, _, changes, removed) => ApplyDelta(mirror, changes, removed)
  }

  // ---------- facts about lists of snapshots ----------

  ghost predicate DistinctIds(current: seq<PlayerSnapshot>) {
    forall i, j :: 0 <= i < j < |current| ==> current[i].id != current[j].id
  }

  ghost predicate KeyedById(m: map<Id, PlayerSnapshot>) {
    forall id :: id in m ==> m[id].id == id
  }

  ghost predicate MirrorKeyed(m: Mirror) {
    forall id :: id in m ==> m[id].id == id
  }

  lemma {:induction false} ByIdMembers(current: seq<PlayerSnapshot>)
    ensures KeyedById(ById(current))
    ensures forall id :: id in ById(current) ==> ById(current)[id] in current
    ensures forall i :: 0 <= i < |current| ==> current[i].id in ById(current)
    ensures DistinctIds(current) ==> forall i :: 0 <= i < |current| ==> ById(current)[current[i].id] == current[i]
  {
    if current != [] {
      ByIdMembers(current[..|current| - 1]);
    }
  }

  lemma {:induction false} RemovedMembers(ids: seq<Id>, current: map<Id, PlayerSnapshot>)
    ensures forall id :: id in Removed(ids, current) <==> id in ids && id !in current
    ensures Removed(ids, current) == [] <==> forall id :: id in ids ==> id in current
  {
    if ids != [] {
      var init := ids[..|ids| - 1];
      RemovedMembers(init, current);
      assert ids == init + [ids[|ids| - 1]];
      assert forall id :: id in Removed(ids, current) ==> id in ids && id !in current;
    }
  }

  /** What the mirror holds for a listed player once its patch, if any, is merged. */
  function Updated(mirror: Mirror, prev: map<Id, PlayerSnapshot>, cur: PlayerSnapshot): PlayerPatch {
    if cur.id in prev && cur.id in mirror then Merge(mirror[cur.id], Diff(prev[cur.id], cur)) else FullPatch(cur)
  }

  lemma MergeEmpty(held: PlayerPatch)
    ensures Merge(held, EmptyPatch(held.id)) == held
  {
  }

  lemma MergeFull(held: PlayerPatch, p: PlayerSnapshot)
    ensures Merge(held, FullPatch(p)) == FullPatch(p)
  {
  }

  lemma PatchAllAppend(mirror: Mirror, changes: seq<PlayerPatch>, c: PlayerPatch)
    ensures PatchAll(mirror, changes + [c]) == Patch1(PatchAll(mirror, changes), c)
  {
    assert (changes + [c])[..|changes|] == changes;
  }

  /** One more listed player: its entry becomes the updated one, every other entry stays. */
  lemma PatchedByOne(mirror: Mirror, prev: map<Id, PlayerSnapshot>, init: seq<PlayerSnapshot>, last: PlayerSnapshot)
    requires last.id in prev ==> last.id in mirror
    requires var before := PatchAll(mirror, Changes(prev, init));
             && MirrorKeyed(mirror)
             && (last.id in before <==> last.id in mirror)
             && (last.id in mirror ==> before[last.id] == mirror[last.id])
    ensures var before := PatchAll(mirror, Changes(prev, init));
            PatchAll(mirror, Changes(prev, init + [last])) == before[last.id := Updated(mirror, prev, last)]
  {
    var before := PatchAll(mirror, Changes(prev, init));
    assert (init + [last])[..|init|] == init;
    var more := ChangesFor(prev, last);
    if more == [] {
      MergeEmpty(mirror[last.id]);
      assert Changes(prev, init + [last]) == Changes(prev, init);
    } else {
      PatchAllAppend(mirror, Changes(prev, init), more[0]);
      if last.id !in prev && last.id in mirror {
        MergeFull(mirror[last.id], last);
      }
    }
  }

  lemma ByIdAppend(init: seq<PlayerSnapshot>, last: PlayerSnapshot)
    ensures ById(init + [last]) == ById(init)[last.id := last]
  {
    assert (init + [last])[..|init|] == init;
  }

  lemma LastIsNew(init: seq<PlayerSnapshot>, last: PlayerSnapshot)
    requires DistinctIds(init + [last])
    ensures DistinctIds(init) && last.id !in ById(init)
  {
    ByIdMembers(init);
    assert forall i :: 0 <= i < |init| ==> (init + [last])[i] == init[i];
    forall i | 0 <= i < |init|
      ensures init[i].id != last.id
    {
      assert (init + [last])[i].id != (init + [last])[|init|].id;
    }
    assert forall id :: id in ById(init) ==> ById(init)[id].id != last.id;
  }

  /** `r` is the mirror with every listed player brought up to date field by field, and all others
      as they were. */
  ghost predicate BroughtUpToDate(r: Mirror, mirror: Mirror, prev: map<Id, PlayerSnapshot>,
      cur: map<Id, PlayerSnapshot>) {
    && (forall id :: id in r <==> id in mirror || id in cur)
    && (forall id :: id in cur ==> r[id] == Updated(mirror, prev, cur[id]))
    && (forall id :: id in mirror && id !in cur ==> r[id] == mirror[id])
  }

  lemma BroughtUpToDateByOne(r: Mirror, mirror: Mirror, prev: map<Id, PlayerSnapshot>, cur: map<Id, PlayerSnapshot>,
      last: PlayerSnapshot)
    requires BroughtUpToDate(r, mirror, prev, cur) && last.id !in cur
    ensures BroughtUpToDate(r[last.id := Updated(mirror, prev, last)], mirror, prev, cur[last.id := last])
  {
  }

  /** Merging a computed delta into any mirror that covers the base brings it up to date. */
  lemma {:induction false} PatchedByDelta(mirror: Mirror, prev: map<Id, PlayerSnapshot>, current: seq<PlayerSnapshot>)
    requires DistinctIds(current) && MirrorKeyed(mirror)
    requires forall id :: id in prev && id in ById(current) ==> id in mirror
    ensures BroughtUpToDate(PatchAll(mirror, Changes(prev, current)), mirror, prev, ById(current))
  {
    if current != [] {
      var init, last := current[..|current| - 1], current[|current| - 1];
      assert current == init + [last];
      LastIsNew(init, last);
      ByIdAppend(init, last);
      PatchedByDelta(mirror, prev, init);
      PatchedByOne(mirror, prev, init, last);
      BroughtUpToDateByOne(PatchAll(mirror, Changes(prev, init)), mirror, prev, ById(init), last);
    }
  }

  ghost predicate UsernamesAgree(a: map<Id, PlayerSnapshot>, b: map<Id, PlayerSnapshot>) {
    forall id :: id in a && id in b ==> a[id].username == b[id].username
  }

  lemma MergeDiff(prev: PlayerSnapshot, cur: PlayerSnapshot)
    ensures Merge(FullPatch(prev), Diff(prev, cur)) == FullPatch(cur.(username := prev.username))
  {
  }

  /** What is left of the base once the removed ids are dropped. */
  lemma KeptKeys(previous: OrderedMap<Id, PlayerSnapshot>, cur: map<Id, PlayerSnapshot>)
    requires Valid(previous)
    ensures var kept := MirrorOf(previous.entries) - ToSet(Removed(previous.keys, cur));
            && (forall id :: id in kept <==> id in previous.entries && id in cur)
            && (forall id :: id in kept ==> kept[id] == FullPatch(previous.entries[id]))
  {
    RemovedMembers(previous.keys, cur);
  }

  lemma UpdatedFromBase(kept: Mirror, prev: map<Id, PlayerSnapshot>, cur: PlayerSnapshot)
    requires cur.id in prev ==> prev[cur.id].id == cur.id && cur.id in kept && kept[cur.id] == FullPatch(prev[cur.id])
    ensures Updated(kept, prev, cur) ==
            FullPatch(if cur.id in prev then cur.(username := prev[cur.id].username) else cur)
  {
    if cur.id in prev {
      MergeDiff(prev[cur.id], cur);
    }
  }

  lemma UpToDateExactlyWhen(r: Mirror, kept: Mirror, prev: map<Id, PlayerSnapshot>, cur: map<Id, PlayerSnapshot>)
    requires BroughtUpToDate(r, kept, prev, cur) && KeyedById(prev) && KeyedById(cur)
    requires forall id :: id in kept <==> id in prev && id in cur
    requires forall id :: id in kept ==> kept[id] == FullPatch(prev[id])
    ensures r == MirrorOf(cur) <==> UsernamesAgree(prev, cur)
  {
    forall id | id in cur
      ensures r[id] == FullPatch(cur[id]) <==> (id in prev ==> prev[id].username == cur[id].username)
    {
      UpdatedFromBase(kept, prev, cur[id]);
    }
    if r == MirrorOf(cur) {
      forall id | id in prev && id in cur
        ensures prev[id].username == cur[id].username
      {
        assert r[id] == FullPatch(cur[id]);
      }
    }
  }

  /** The round trip: a client that holds the base and applies the delta holds the current list,
      exactly when no player known to both has changed username. */
  lemma DeltaRoundTrip(previous: OrderedMap<Id, PlayerSnapshot>, current: seq<PlayerSnapshot>)
    requires Valid(previous) && KeyedById(previous.entries) && DistinctIds(current)
    ensures ApplyDelta(MirrorOf(previous.entries),
                       Changes(previous.entries, current),
                       Removed(previous.keys, ById(current))) == MirrorOf(ById(current))
            <==> UsernamesAgree(previous.entries, ById(current))
  {
    var prev, cur := previous.entries, ById(current);
    var kept := MirrorOf(prev) - ToSet(Removed(previous.keys, cur));
    KeptKeys(previous, cur);
    ByIdMembers(current);
    PatchedByDelta(kept, prev, current);
    UpToDateExactlyWhen(PatchAll(kept, Changes(prev, current)), kept, prev, cur);
  }

  // ---------- the delta is as small as it can be ----------

  /** The patch names a field precisely when that field differs, and names its new value. */
  ghost predicate CarriesExactly(c: PlayerPatch, prev: PlayerSnapshot, cur: PlayerSnapshot) {
    && c.id == cur.id
    && c.username == None
    && (c.position.Some? <==> prev.position != cur.position)
    && (c.rotation.Some? <==> prev.rotation != cur.rotation)
    && (c.velocity.Some? <==> prev.velocity != cur.velocity)
    && (c.hp.Some? <==> prev.hp != cur.hp)
    && (c.connected.Some? <==> prev.connected != cur.connected)
    && (c.ping.Some? <==> prev.ping != cur.ping)
    && (c.lastProcessedInputSeq.Some? <==> prev.lastProcessedInputSeq != cur.lastProcessedInputSeq)
    && Merge(FullPatch(prev), c) == FullPatch(cur.(username := prev.username))
    && c != EmptyPatch(c.id)
  }

  /** Every patch of a delta is either a newcomer in full or exactly one player's differences. */
  lemma {:induction false} PatchesAreExact(prev: map<Id, PlayerSnapshot>, current: seq<PlayerSnapshot>, c: PlayerPatch)
    requires c in Changes(prev, current)
    ensures exists cur :: cur in current && cur.id == c.id &&
                          (if cur.id in prev then CarriesExactly(c, prev[cur.id], cur) else c == FullPatch(cur))
  {
    var init, last := current[..|current| - 1], current[|current| - 1];
    if c in Changes(prev, init) {
      PatchesAreExact(prev, init, c);
    } else {
      assert c in ChangesFor(prev, last);
      if last.id in prev {
        MergeDiff(prev[last.id], last);
      }
      assert last in current;
    }
  }

  /** At most one patch per player, when the list names each player once. */
  lemma {:induction false} PatchIdsDistinct(prev: map<Id, PlayerSnapshot>, current: seq<PlayerSnapshot>)
    requires DistinctIds(current)
    ensures forall i, j :: 0 <= i < j < |Changes(prev, current)| ==>
              Changes(prev, current)[i].id != Changes(prev, current)[j].id
  {
    if current != [] {
      var init, last := current[..|current| - 1], current[|current| - 1];
      PatchIdsDistinct(prev, init);
      forall c | c in Changes(prev, init)
        ensures c.id != last.id
      {
        PatchesAreExact(prev, init, c);
      }
    }
  }

  /** No smaller patch would do: whatever patch takes a client from one snapshot to the next names
      at least the fields the computed one names. */
  lemma DiffIsSmallest(prev: PlayerSnapshot, cur: PlayerSnapshot, other: PlayerPatch)
    requires Merge(FullPatch(prev), other) == FullPatch(cur)
    ensures Merge(Diff(prev, cur), other) == other
    ensures Diff(prev, cur).position.Some? ==> other.position.Some?
    ensures Diff(prev, cur).rotation.Some? ==> other.rotation.Some?
    ensures Diff(prev, cur).velocity.Some? ==> other.velocity.Some?
    ensures Diff(prev, cur).hp.Some? ==> other.hp.Some?
    ensures Diff(prev, cur).connected.Some? ==> other.connected.Some?
    ensures Diff(prev, cur).ping.Some? ==> other.ping.Some?
    ensures Diff(prev, cur).lastProcessedInputSeq.Some? ==> other.lastProcessedInputSeq.Some?
  {
  }

  lemma {:induction false} NoChangesExactlyWhen(prev: map<Id, PlayerSnapshot>, current: seq<PlayerSnapshot>)
    ensures Changes(prev, current) == [] <==>
            forall p :: p in current ==> p.id in prev && Diff(prev[p.id], p) == EmptyPatch(p.id)
  {
    if current != [] {
      var init, last := current[..|current| - 1], current[|current| - 1];
      NoChangesExactlyWhen(prev, init);
      assert current == init + [last];
      assert last in current;
      assert forall p :: p in current <==> p in init || p == last;
    }
  }

  lemma EmptyDiffExactlyWhen(prev: PlayerSnapshot, cur: PlayerSnapshot)
    requires prev.id == cur.id
    ensures Diff(prev, cur) == EmptyPatch(cur.id) <==> prev.(username := cur.username) == cur
  {
  }

  lemma SameListExactlyWhen(prev: map<Id, PlayerSnapshot>, cur: map<Id, PlayerSnapshot>)
    requires KeyedById(prev) && KeyedById(cur) && UsernamesAgree(prev, cur)
    ensures prev == cur <==>
            && (forall id :: id in prev ==> id in cur)
            && (forall id :: id in cur ==> id in prev && Diff(prev[id], cur[id]) == EmptyPatch(id))
  {
    forall id | id in cur && id in prev
      ensures Diff(prev[id], cur[id]) == EmptyPatch(id) <==> prev[id] == cur[id]
    {
      EmptyDiffExactlyWhen(prev[id], cur[id]);
    }
  }

  /** A delta is empty exactly when there is nothing to tell. */
  lemma DeltaEmptyExactlyWhen(previous: OrderedMap<Id, PlayerSnapshot>, current: seq<PlayerSnapshot>)
    requires Valid(previous) && KeyedById(previous.entries) && DistinctIds(current)
    requires UsernamesAgree(previous.entries, ById(current))
    ensures Changes(previous.entries, current) == [] && Removed(previous.keys, ById(current)) == []
            <==> previous.entries == ById(current)
  {
    var prev, cur := previous.entries, ById(current);
    ByIdMembers(current);
    RemovedMembers(previous.keys, cur);
    NoChangesExactlyWhen(prev, current);
    SameListExactlyWhen(prev, cur);
    assert forall p :: p in current ==> p.id in cur && cur[p.id] == p;
    assert forall id :: id in cur ==> cur[id] in current && cur[id].id == id;
  }
}
