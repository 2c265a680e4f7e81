/** Refresh-token rotation. The rows of the token table, the service's calls run one at a time, and
    the same calls interleaved at each of their repository calls. */
module RefreshTokens {
  import opened OrderedMaps

  type UserId = string
  /** Tokens are compared by their hashes, which differ for different tokens. */
  type Hash = nat
  /** A row's place in the order of creation. */
  type TokenId = nat

  datatype Row = Row(userId: UserId, tokenHash: Hash, expiresAt: int, revokedAt: Option<int>)

  /** The rows, and for each the token whose rotation created it; the latter is history, not stored. */
  datatype Store = Store(rows: seq<Row>, parents: seq<Option<TokenId>>)

  const NEW_STORE := Store([], [])

  // ---------- the repository ----------

  function Find(rows: seq<Row>, h: Hash): (found: Option<TokenId>)
    ensures found.Some? ==> found.value < |rows| && rows[found.value].tokenHash == h
    ensures found.None? ==> forall i :: 0 <= i < |rows| ==> rows[i].tokenHash != h
  {
    if rows == [] then None
    else if rows[|rows| - 1].tokenHash == h then Some(|rows| - 1)
    else Find(rows[..|rows| - 1], h)
  }

  function Revoke(rows: seq<Row>, id: TokenId, now: int): seq<Row> {
    if id < |rows| then rows[id := rows[id].(revokedAt := Some(now))] else rows
  }

  function RevokedFor(r: Row, u: UserId, now: int): Row {
    if r.userId == u && r.revokedAt == None then r.(revokedAt := Some(now)) else r
  }

  function RevokeAll(rows: seq<Row>, u: UserId, now: int): seq<Row> {
    seq(|rows|, i requires 0 <= i < |rows| => RevokedFor(rows[i], u, now))
  }

  predicate IsActive(rows: seq<Row>, id: TokenId) {
    id < |rows| && rows[id].revokedAt == None
  }

  /** Fails when the hash is taken. */
  function Create(s: Store, u: UserId, h: Hash, expiresAt: int, parent: Option<TokenId>): (Store, bool) {
    if Find(s.rows, h).Some? then (s, false)
    else (Store(s.rows + [Row(u, h, expiresAt, None)], s.parents + [parent]), true)
  }

  // ---------- the service, one call at a time ----------

  datatype Outcome = Issued(id: TokenId) | Done | Failed(why: Failure)
  datatype Failure = InvalidToken | RevokedOrExpired | WrongUser | Reuse | NoPlayer | DuplicateHash | NotOwner

  /** What a refresh checks before it touches the table; `payload` is what the signature vouches for. */
  function Check(rows: seq<Row>, payload: Option<UserId>, h: Hash, now: int): Outcome {
    if payload == None then Failed(InvalidToken)
    else
      var stored := Find(rows, h);
      if stored == None || rows[stored.value].expiresAt < now then Failed(RevokedOrExpired)
      else if rows[stored.value].userId != payload.value then Failed(WrongUser)
      else Issued(stored.value)
  }

  function IssueTokens(s: Store, u: UserId, h: Hash, expiresAt: int, parent: Option<TokenId>): (Store, Outcome) {
    var (s', ok) := Create(s, u, h, expiresAt, parent);
    (s', if ok then Issued(|s.rows|) else Failed(DuplicateHash))
  }

  function Refresh(s: Store, payload: Option<UserId>, h: Hash, now: int, player: bool, newHash: Hash,
      newExpiry: int): (Store, Outcome) {
    var checked := Check(s.rows, payload, h, now);
    if !checked.Issued? then (s, checked)
    else if !IsActive(s.rows, checked.id) then (s.(rows := RevokeAll(s.rows, payload.value, now)), Failed(Reuse))
    else
      var rotated := s.(rows := Revoke(s.rows, checked.id, now));
      if !player then (rotated, Failed(NoPlayer))
      else IssueTokens(rotated, payload.value, newHash, newExpiry, Some(checked.id))
  }

  function Logout(s: Store, u: UserId, h: Hash, now: int): (Store, Outcome) {
    var stored := Find(s.rows, h);
    if stored == None then (s, Done)
    else if s.rows[stored.value].userId != u then (s, Failed(NotOwner))
    else if s.rows[stored.value].revokedAt == None then (s.(rows := Revoke(s.rows, stored.value, now)), Done)
    else (s, Done)
  }

  function LogoutAll(s: Store, u: UserId, now: int): Store {
    s.(rows := RevokeAll(s.rows, u, now))
  }

  // ---------- the service, interleaved ----------

  /** A call waiting to make its next repository call. */
  datatype Task =
    | WillRevoke(id: TokenId, userId: UserId)
    | WillFindPlayer(id: TokenId, userId: UserId)
    | WillRotate(id: TokenId, userId: UserId)
    | WillRevokeAll(userId: UserId)
    | WillIssue(userId: UserId)
    | WillLogOut(id: TokenId)

  datatype Auth = Auth(store: Store, tasks: seq<Task>)

  const NEW_AUTH := Auth(NEW_STORE, [])

  datatype Event =
    | RefreshCalled(payload: Option<UserId>, tokenHash: Hash, now: int)
    | SignedIn(userId: UserId)
    | LogoutCalled(userId: UserId, tokenHash: Hash)
    | LogoutAllCalled(userId: UserId, now: int)
    | Resumes(i: nat, now: int, player: bool, newHash: Hash, newExpiry: int)
    | Fails(i: nat)

  function WithoutTask(tasks: seq<Task>, i: nat): seq<Task>
    requires i < |tasks|
  {
    tasks[..i] + tasks[i + 1..]
  }

  function Resume(s: Store, t: Task, now: int, player: bool, newHash: Hash, newExpiry: int): (Store, Option<Task>) {
    match t
    case WillRevoke(id, u) =>
      if IsActive(s.rows, id) then (s.(rows := Revoke(s.rows, id, now)), Some(WillFindPlayer(id, u)))
      else (s, Some(WillRevokeAll(u)))
    case WillFindPlayer(id, u) => (s, if player then Some(WillRotate(id, u)) else None)
    case WillRotate(id, u) => (Create(s, u, newHash, newExpiry, Some(id)).0, None)
    case WillRevokeAll(u) => (s.(rows := RevokeAll(s.rows, u, now)), None)
    case WillIssue(u) => (Create(s, u, newHash, newExpiry, None).0, None)
    case WillLogOut(id) => (s.(rows := Revoke(s.rows, id, now)), None)
  }

  function Appended(tasks: seq<Task>, t: Option<Task>): seq<Task> {
    if t.Some? then tasks + [t.value] else tasks
  }

  /** One repository call, or the arrival or the failure of a call; a register or login is seen from
      the moment its user may be issued a token. */
  function Next(a: Auth, e: Event): Auth {
    match e
    case RefreshCalled(payload, h, now) =>
      var checked := Check(a.store.rows, payload, h, now);
      if checked.Issued? then a.(tasks := a.tasks + [WillRevoke(checked.id, payload.value)]) else a
    case SignedIn(u) => a.(tasks := a.tasks + [WillIssue(u)])
    case LogoutCalled(u, h) =>
      var stored := Find(a.store.rows, h);
      if stored.Some? && a.store.rows[stored.value].userId == u && a.store.rows[stored.value].revokedAt == None
      then a.(tasks := a.tasks + [WillLogOut(stored.value)]) else a
    case LogoutAllCalled(u, now) => a.(store := LogoutAll(a.store, u, now))
    case Resumes(i, now, player, newHash, newExpiry) =>
      if i >= |a.tasks| then a
      else
        var (s, more) := Resume(a.store, a.tasks[i], now, player, newHash, newExpiry);
        Auth(s, Appended(WithoutTask(a.tasks, i), more))
    case Fails(i) => if i >= |a.tasks| then a else a.(tasks := WithoutTask(a.tasks, i))
  }

  function Run(a: Auth, es: seq<Event>): Auth {
    if es == [] then a else Next(Run(a, es[..|es| - 1]), es[|es| - 1])
  }

  // ---------- what every event keeps ----------

  predicate Rotating(t: Task, id: TokenId) {
    (t.WillFindPlayer? || t.WillRotate?) && t.id == id
  }

  /** The token has been given a successor. */
  predicate Spent(s: Store, id: TokenId) {
    exists j :: 0 <= j < |s.parents| && s.parents[j] == Some(id)
  }

  predicate HashesUnique(rows: seq<Row>) {
    forall i, j :: 0 <= i < j < |rows| ==> rows[i].tokenHash != rows[j].tokenHash
  }

  /** Each token has at most one successor, created for its user after it was revoked. */
  predicate ChainsSound(s: Store) {
    && |s.parents| == |s.rows|
    && HashesUnique(s.rows)
    && (forall i :: 0 <= i < |s.parents| && s.parents[i].Some? ==>
          && s.parents[i].value < i
          && s.rows[s.parents[i].value].revokedAt.Some?
          && s.rows[s.parents[i].value].userId == s.rows[i].userId)
    && (forall i, j :: 0 <= i < j < |s.parents| && s.parents[i].Some? ==> s.parents[i] != s.parents[j])
  }

  /** The rotations in flight are of different tokens, each revoked and still without a successor. */
  predicate RotationsSound(s: Store, tasks: seq<Task>) {
    && (forall k :: 0 <= k < |tasks| && (tasks[k].WillRevoke? || tasks[k].WillFindPlayer? || tasks[k].WillRotate?) ==>
          tasks[k].id < |s.rows| && s.rows[tasks[k].id].userId == tasks[k].userId)
    && (forall k :: 0 <= k < |tasks| && (tasks[k].WillFindPlayer? || tasks[k].WillRotate?) ==>
          tasks[k].id < |s.rows| && s.rows[tasks[k].id].revokedAt.Some? && !Spent(s, tasks[k].id))
    && (forall j, k :: 0 <= j < k < |tasks| && (tasks[j].WillFindPlayer? || tasks[j].WillRotate?) ==>
         !Rotating(tasks[k], tasks[j].id))
  }

  predicate AuthInv(a: Auth) {
    ChainsSound(a.store) && RotationsSound(a.store, a.tasks)
  }

  /** The rows are the same but for more of them being revoked. */
  predicate OnlyRevoked(rows: seq<Row>, rows': seq<Row>) {
    && |rows'| == |rows|
    && forall i :: 0 <= i < |rows| ==>
         && rows'[i].userId == rows[i].userId
         && rows'[i].tokenHash == rows[i].tokenHash
         && (rows[i].revokedAt.Some? ==> rows'[i].revokedAt.Some?)
  }

  lemma RevokingKeeps(a: Auth, rows: seq<Row>)
    requires AuthInv(a) && OnlyRevoked(a.store.rows, rows)
    ensures AuthInv(a.(store := a.store.(rows := rows)))
  {
    assert forall id: TokenId :: Spent(a.store.(rows := rows), id) <==> Spent(a.store, id);
  }

  lemma DroppingKeeps(a: Auth, i: nat)
    requires AuthInv(a) && i < |a.tasks|
    ensures AuthInv(a.(tasks := WithoutTask(a.tasks, i)))
  {
    var less := WithoutTask(a.tasks, i);
    assert forall k :: 0 <= k < |less| ==> less[k] == if k < i then a.tasks[k] else a.tasks[k + 1];
  }

  /** A task that rotates nothing. */
  lemma AddingKeeps(a: Auth, t: Task)
    requires AuthInv(a) && !t.WillFindPlayer? && !t.WillRotate?
    requires t.WillRevoke? ==> t.id < |a.store.rows| && a.store.rows[t.id].userId == t.userId
    ensures AuthInv(a.(tasks := a.tasks + [t]))
  {
    var more := a.tasks + [t];
    assert forall k :: 0 <= k < |more| ==> more[k] == if k < |a.tasks| then a.tasks[k] else t;
  }

  /** A rotation of a token that is revoked, has no successor and is not being rotated. */
  lemma RotatingKeeps(a: Auth, t: Task)
    requires AuthInv(a) && (t.WillFindPlayer? || t.WillRotate?)
    requires t.id < |a.store.rows| && a.store.rows[t.id].userId == t.userId && a.store.rows[t.id].revokedAt.Some?
             && !Spent(a.store, t.id)
    requires forall k :: 0 <= k < |a.tasks| ==> !Rotating(a.tasks[k], t.id)
    ensures AuthInv(a.(tasks := a.tasks + [t]))
  {
    var more := a.tasks + [t];
    assert forall k :: 0 <= k < |more| ==> more[k] == if k < |a.tasks| then a.tasks[k] else t;
  }

  lemma CreatingKeeps(a: Auth, u: UserId, h: Hash, expiresAt: int, parent: Option<TokenId>)
    requires AuthInv(a)
    requires parent.Some? ==>
               && parent.value < |a.store.rows| && a.store.rows[parent.value].userId == u
               && a.store.rows[parent.value].revokedAt.Some? && !Spent(a.store, parent.value)
               && (forall k :: 0 <= k < |a.tasks| ==> !Rotating(a.tasks[k], parent.value))
    ensures AuthInv(a.(store := Create(a.store, u, h, expiresAt, parent).0))
  {
    var s, s' := a.store, Create(a.store, u, h, expiresAt, parent).0;
    if s' != s {
      assert forall i :: 0 <= i < |s'.parents| ==> s'.parents[i] == if i < |s.parents| then s.parents[i] else parent;
      assert forall i :: 0 <= i < |s.rows| ==> s'.rows[i] == s.rows[i];
      assert forall id: TokenId :: Spent(s', id) ==> Spent(s, id) || parent == Some(id);
    }
  }

  lemma RevokeOnlyRevokes(rows: seq<Row>, id: TokenId, now: int)
    ensures OnlyRevoked(rows, Revoke(rows, id, now))
  {
  }

  lemma RevokeAllOnlyRevokes(rows: seq<Row>, u: UserId, now: int)
    ensures OnlyRevoked(rows, RevokeAll(rows, u, now))
  {
  }

  /** An active token has no successor and is not being rotated. */
  lemma ActiveIsLast(a: Auth, id: TokenId)
    requires AuthInv(a) && IsActive(a.store.rows, id)
    ensures !Spent(a.store, id) && forall k :: 0 <= k < |a.tasks| ==> !Rotating(a.tasks[k], id)
  {
  }

  lemma ResumeKeeps(a: Auth, i: nat, now: int, player: bool, newHash: Hash, newExpiry: int)
    requires AuthInv(a) && i < |a.tasks|
    ensures AuthInv(Next(a, Resumes(i, now, player, newHash, newExpiry)))
  {
    hide ChainsSound, Create, Revoke, RevokeAll, OnlyRevoked, Find;
    var rest := a.(tasks := WithoutTask(a.tasks, i));
    DroppingKeeps(a, i);
    OthersDoNotRotate(a, i);
    match a.tasks[i]
    case WillRevoke(id, u) =>
      if IsActive(a.store.rows, id) {
        RevokeOnlyRevokes(a.store.rows, id, now);
        RevokingKeeps(rest, Revoke(a.store.rows, id, now));
        RevokeStarts(rest, id, u, now);
      } else {
        AddingKeeps(rest, WillRevokeAll(u));
      }
    case WillFindPlayer(id, u) =>
      if player {
        RotatingKeeps(rest, WillRotate(id, u));
      }
    case WillRotate(id, u) => CreatingKeeps(rest, u, newHash, newExpiry, Some(id));
    case WillRevokeAll(u) =>
      RevokeAllOnlyRevokes(a.store.rows, u, now);
      RevokingKeeps(rest, RevokeAll(a.store.rows, u, now));
    case WillIssue(u) => CreatingKeeps(rest, u, newHash, newExpiry, None);
    case WillLogOut(id) =>
      RevokeOnlyRevokes(a.store.rows, id, now);
      RevokingKeeps(rest, Revoke(a.store.rows, id, now));
  }

  lemma OthersDoNotRotate(a: Auth, i: nat)
    requires AuthInv(a) && i < |a.tasks|
    ensures a.tasks[i].WillFindPlayer? || a.tasks[i].WillRotate? ==>
              forall k :: 0 <= k < |WithoutTask(a.tasks, i)| ==> !Rotating(WithoutTask(a.tasks, i)[k], a.tasks[i].id)
  {
    var less := WithoutTask(a.tasks, i);
    assert forall k :: 0 <= k < |less| ==> less[k] == if k < i then a.tasks[k] else a.tasks[k + 1];
  }

  /** Whoever wins the compare-and-set is alone in rotating the token. */
  lemma RevokeStarts(a: Auth, id: TokenId, u: UserId, now: int)
    requires AuthInv(a) && IsActive(a.store.rows, id) && a.store.rows[id].userId == u
    ensures AuthInv(Auth(a.store.(rows := Revoke(a.store.rows, id, now)), a.tasks + [WillFindPlayer(id, u)]))
  {
    ActiveIsLast(a, id);
    RevokeOnlyRevokes(a.store.rows, id, now);
    RevokingKeeps(a, Revoke(a.store.rows, id, now));
    var s := a.store.(rows := Revoke(a.store.rows, id, now));
    assert Spent(s, id) <==> Spent(a.store, id);
    RotatingKeeps(a.(store := s), WillFindPlayer(id, u));
  }

  lemma NextKeeps(a: Auth, e: Event)
    requires AuthInv(a)
    ensures AuthInv(Next(a, e))
  {
    hide ChainsSound, RotationsSound, Resume, RevokeAll, OnlyRevoked;
    match e
    case RefreshCalled(payload, h, now) =>
      if Check(a.store.rows, payload, h, now).Issued? {
        AddingKeeps(a, WillRevoke(Check(a.store.rows, payload, h, now).id, payload.value));
      }
    case SignedIn(u) => AddingKeeps(a, WillIssue(u));
    case LogoutCalled(u, h) =>
      if Next(a, e) != a {
        AddingKeeps(a, WillLogOut(Find(a.store.rows, h).value));
      }
    case LogoutAllCalled(u, now) =>
      RevokeAllOnlyRevokes(a.store.rows, u, now);
      RevokingKeeps(a, RevokeAll(a.store.rows, u, now));
    case Resumes(i, now, player, newHash, newExpiry) =>
      if i < |a.tasks| {
        ResumeKeeps(a, i, now, player, newHash, newExpiry);
      }
    case Fails(i) =>
      if i < |a.tasks| {
        DroppingKeeps(a, i);
      }
  }

  lemma {:induction false} RunKeeps(a: Auth, es: seq<Event>)
    requires AuthInv(a)
    ensures AuthInv(Run(a, es))
  {
    hide AuthInv, Next;
    if es != [] {
      RunKeeps(a, es[..|es| - 1]);
      NextKeeps(Run(a, es[..|es| - 1]), es[|es| - 1]);
    }
  }

  lemma NewAuthInv()
    ensures AuthInv(NEW_AUTH)
  {
  }
}
