/** What rotation promises: chains that never branch, no more live tokens than sign-ins, and what a
    revocation is worth, with one call at a time and with calls interleaved. */
module RefreshGuarantees {
  import opened OrderedMaps
  import opened RefreshTokens

  // ---------- chains ----------

  /** Over every interleaving a token is rotated into at most one successor, which belongs to the
      same user, and a token with a successor is revoked: only the last of a chain can be active. */
  lemma ChainsNeverBranch(es: seq<Event>, i: TokenId, j: TokenId)
    ensures var s := Run(NEW_AUTH, es).store;
            && |s.parents| == |s.rows|
            && (i < |s.rows| && s.parents[i].Some? ==>
                  var p := s.parents[i].value;
                  && p < i && !IsActive(s.rows, p) && s.rows[p].userId == s.rows[i].userId
                  && (j < |s.rows| && s.parents[j] == Some(p) ==> j == i))
  {
    hide Run, RotationsSound;
    NewAuthInv();
    RunKeeps(NEW_AUTH, es);
  }

  /** The sign-in a token goes back to. */
  function Root(s: Store, i: TokenId): (root: TokenId)
    requires ChainsSound(s) && i < |s.rows|
    ensures root < |s.rows| && s.parents[root] == None
  {
    if s.parents[i] == None then i else Root(s, s.parents[i].value)
  }

  /** Token `j` was reached from `i` by one rotation or more. */
  predicate Precedes(s: Store, i: TokenId, j: TokenId)
    requires ChainsSound(s) && j < |s.rows|
  {
    s.parents[j].Some? && (s.parents[j].value == i || Precedes(s, i, s.parents[j].value))
  }

  lemma {:induction false} NextOnTheWay(s: Store, p: TokenId, i: TokenId, x: TokenId)
    requires ChainsSound(s) && i < |s.rows| && x < |s.rows| && s.parents[i] == Some(p) && Precedes(s, p, x)
    ensures x == i || Precedes(s, i, x)
  {
    if s.parents[x].value != p {
      NextOnTheWay(s, p, i, s.parents[x].value);
    }
  }

  lemma {:induction false} RootPrecedes(s: Store, i: TokenId)
    requires ChainsSound(s) && i < |s.rows|
    ensures i == Root(s, i) || Precedes(s, Root(s, i), i)
  {
    if s.parents[i].Some? {
      RootPrecedes(s, s.parents[i].value);
    }
  }

  lemma {:induction false} OneLine(s: Store, i: TokenId, j: TokenId)
    requires ChainsSound(s) && i < |s.rows| && j < |s.rows| && Root(s, i) == Root(s, j)
    ensures i == j || Precedes(s, i, j) || Precedes(s, j, i)
    decreases i + j
  {
    if s.parents[i] == None {
      RootPrecedes(s, j);
    } else if s.parents[j] == None {
      RootPrecedes(s, i);
    } else {
      var p, q := s.parents[i].value, s.parents[j].value;
      OneLine(s, p, q);
      if Precedes(s, p, q) {
        NextOnTheWay(s, p, i, q);
      } else if Precedes(s, q, p) {
        NextOnTheWay(s, q, j, p);
      }
    }
  }

  lemma {:induction false} PrecedingIsSpent(s: Store, i: TokenId, j: TokenId)
    requires ChainsSound(s) && i < |s.rows| && j < |s.rows| && Precedes(s, i, j)
    ensures Spent(s, i) && !IsActive(s.rows, i)
  {
    if s.parents[j].value != i {
      PrecedingIsSpent(s, i, s.parents[j].value);
    }
  }

  /** A token that is active, or was won by a refresh that has still to create its successor. */
  predicate Live(a: Auth, i: TokenId) {
    IsActive(a.store.rows, i) || exists k :: 0 <= k < |a.tasks| && Rotating(a.tasks[k], i)
  }

  /** Over every interleaving each sign-in has at most one live token. */
  lemma OneLiveTokenPerSignIn(es: seq<Event>, i: TokenId, j: TokenId)
    ensures var a := Run(NEW_AUTH, es);
            && ChainsSound(a.store)
            && ((i < |a.store.rows| && j < |a.store.rows| && Live(a, i) && Live(a, j)
                 && Root(a.store, i) == Root(a.store, j)) ==> i == j)
  {
    hide Run;
    NewAuthInv();
    RunKeeps(NEW_AUTH, es);
    var a := Run(NEW_AUTH, es);
    if i < |a.store.rows| && j < |a.store.rows| && Live(a, i) && Live(a, j) && Root(a.store, i) == Root(a.store, j)
        && i != j {
      OneLine(a.store, i, j);
      LiveIsUnspent(a, i);
      LiveIsUnspent(a, j);
      if Precedes(a.store, i, j) {
        PrecedingIsSpent(a.store, i, j);
      } else {
        PrecedingIsSpent(a.store, j, i);
      }
    }
  }

  lemma LiveIsUnspent(a: Auth, i: TokenId)
    requires AuthInv(a) && Live(a, i)
    ensures !Spent(a.store, i)
  {
  }

  // ---------- counting ----------

  function Active(rows: seq<Row>, u: UserId): nat {
    if rows == [] then 0
    else
      var last := rows[|rows| - 1];
      Active(rows[..|rows| - 1], u) + if last.userId == u && last.revokedAt == None then 1 else 0
  }

  /** The refreshes of a user that have won their token and have still to issue its successor. */
  function InFlight(tasks: seq<Task>, u: UserId): nat {
    if tasks == [] then 0
    else
      var last := tasks[|tasks| - 1];
      InFlight(tasks[..|tasks| - 1], u) +
      if (last.WillFindPlayer? || last.WillRotate?) && last.userId == u then 1 else 0
  }

  /** The tokens a user was issued by register and login. */
  function SignIns(s: Store, u: UserId): nat
    requires |s.parents| == |s.rows|
    decreases |s.rows|
  {
    if s.rows == [] then 0
    else
      var n := |s.rows| - 1;
      SignIns(Store(s.rows[..n], s.parents[..n]), u) + if s.rows[n].userId == u && s.parents[n] == None then 1 else 0
  }

  lemma ActiveAppend(rows: seq<Row>, r: Row, u: UserId)
    ensures Active(rows + [r], u) == Active(rows, u) + if r.userId == u && r.revokedAt == None then 1 else 0
  {
    assert (rows + [r])[..|rows|] == rows;
  }

  lemma {:induction false} ActiveAfterRevoke(rows: seq<Row>, id: TokenId, now: int, u: UserId)
    ensures Active(Revoke(rows, id, now), u) ==
            Active(rows, u) - if IsActive(rows, id) && rows[id].userId == u then 1 else 0
  {
    if id < |rows| {
      var n := |rows| - 1;
      if id == n {
        assert Revoke(rows, id, now)[..n] == rows[..n];
      } else {
        ActiveAfterRevoke(rows[..n], id, now, u);
        assert Revoke(rows, id, now)[..n] == Revoke(rows[..n], id, now);
      }
    }
  }

  lemma {:induction false} ActiveAfterRevokeAll(rows: seq<Row>, v: UserId, now: int, u: UserId)
    ensures Active(RevokeAll(rows, v, now), u) == if u == v then 0 else Active(rows, u)
  {
    if rows != [] {
      var n := |rows| - 1;
      ActiveAfterRevokeAll(rows[..n], v, now, u);
      assert RevokeAll(rows, v, now)[..n] == RevokeAll(rows[..n], v, now);
    }
  }

  lemma InFlightAppend(tasks: seq<Task>, t: Task, u: UserId)
    ensures InFlight(tasks + [t], u) ==
            InFlight(tasks, u) + if (t.WillFindPlayer? || t.WillRotate?) && t.userId == u then 1 else 0
  {
    assert (tasks + [t])[..|tasks|] == tasks;
  }

  lemma {:induction false} InFlightWithout(tasks: seq<Task>, i: nat, u: UserId)
    requires i < |tasks|
    ensures InFlight(WithoutTask(tasks, i), u) ==
            InFlight(tasks, u) -
            if (tasks[i].WillFindPlayer? || tasks[i].WillRotate?) && tasks[i].userId == u then 1 else 0
  {
    var n := |tasks| - 1;
    if i == n {
      assert WithoutTask(tasks, i) == tasks[..n];
    } else {
      InFlightWithout(tasks[..n], i, u);
      assert WithoutTask(tasks, i) == WithoutTask(tasks[..n], i) + [tasks[n]];
      InFlightAppend(WithoutTask(tasks[..n], i), tasks[n], u);
    }
  }

  lemma {:induction false} SignInsOfRevoked(s: Store, rows: seq<Row>, u: UserId)
    requires |s.parents| == |s.rows| && OnlyRevoked(s.rows, rows)
    ensures SignIns(s.(rows := rows), u) == SignIns(s, u)
    decreases |s.rows|
  {
    if s.rows != [] {
      var n := |s.rows| - 1;
      SignInsOfRevoked(Store(s.rows[..n], s.parents[..n]), rows[..n], u);
    }
  }

  lemma SignInsAppend(s: Store, r: Row, parent: Option<TokenId>, u: UserId)
    requires |s.parents| == |s.rows|
    ensures SignIns(Store(s.rows + [r], s.parents + [parent]), u) ==
            SignIns(s, u) + if r.userId == u && parent == None then 1 else 0
  {
    assert (s.rows + [r])[..|s.rows|] == s.rows && (s.parents + [parent])[..|s.parents|] == s.parents;
  }

  /** A user has no more live tokens than sign-ins. */
  predicate Bounded(a: Auth, u: UserId)
    requires AuthInv(a)
  {
    Active(a.store.rows, u) + InFlight(a.tasks, u) <= SignIns(a.store, u)
  }

  lemma CreateCounts(s: Store, v: UserId, h: Hash, expiresAt: int, parent: Option<TokenId>, u: UserId)
    requires |s.parents| == |s.rows|
    ensures var s' := Create(s, v, h, expiresAt, parent).0;
            && |s'.parents| == |s'.rows|
            && Active(s'.rows, u) <= Active(s.rows, u) + (if v == u then 1 else 0)
            && SignIns(s', u) - Active(s'.rows, u) >=
               SignIns(s, u) - Active(s.rows, u) - (if v == u && parent.Some? then 1 else 0)
  {
    ActiveAppend(s.rows, Row(v, h, expiresAt, None), u);
    SignInsAppend(s, Row(v, h, expiresAt, None), parent, u);
  }

  lemma ResumeStaysBounded(a: Auth, i: nat, now: int, player: bool, newHash: Hash, newExpiry: int, u: UserId)
    requires AuthInv(a) && Bounded(a, u) && i < |a.tasks|
             && AuthInv(Next(a, Resumes(i, now, player, newHash, newExpiry)))
    ensures Bounded(Next(a, Resumes(i, now, player, newHash, newExpiry)), u)
  {
    hide Create, Revoke, RevokeAll, OnlyRevoked, WithoutTask, RotationsSound;
    InFlightWithout(a.tasks, i, u);
    var less, rows := WithoutTask(a.tasks, i), a.store.rows;
    match a.tasks[i]
    case WillRevoke(id, v) =>
      ActiveAfterRevoke(rows, id, now, u);
      RevokeOnlyRevokes(rows, id, now);
      SignInsOfRevoked(a.store, Revoke(rows, id, now), u);
      InFlightAppend(less, WillFindPlayer(id, v), u);
      InFlightAppend(less, WillRevokeAll(v), u);
      RevokerIsOwner(a, i);
    case WillFindPlayer(id, v) => InFlightAppend(less, WillRotate(id, v), u);
    case WillRotate(id, v) => CreateCounts(a.store, v, newHash, newExpiry, Some(id), u);
    case WillRevokeAll(v) =>
      ActiveAfterRevokeAll(rows, v, now, u);
      RevokeAllOnlyRevokes(rows, v, now);
      SignInsOfRevoked(a.store, RevokeAll(rows, v, now), u);
    case WillIssue(v) => CreateCounts(a.store, v, newHash, newExpiry, None, u);
    case WillLogOut(id) =>
      ActiveAfterRevoke(rows, id, now, u);
      RevokeOnlyRevokes(rows, id, now);
      SignInsOfRevoked(a.store, Revoke(rows, id, now), u);
  }

  lemma RevokerIsOwner(a: Auth, i: nat)
    requires AuthInv(a) && i < |a.tasks| && a.tasks[i].WillRevoke?
    ensures a.tasks[i].id < |a.store.rows| && a.store.rows[a.tasks[i].id].userId == a.tasks[i].userId
  {
  }

  lemma NextStaysBounded(a: Auth, e: Event, u: UserId)
    requires AuthInv(a) && Bounded(a, u) && AuthInv(Next(a, e))
    ensures Bounded(Next(a, e), u)
  {
    hide Create, Revoke, RevokeAll, OnlyRevoked, WithoutTask, RotationsSound, Resume;
    match e
    case RefreshCalled(payload, h, now) =>
      if Next(a, e) != a {
        InFlightAppend(a.tasks, WillRevoke(Check(a.store.rows, payload, h, now).id, payload.value), u);
      }
    case SignedIn(v) => InFlightAppend(a.tasks, WillIssue(v), u);
    case LogoutCalled(v, h) =>
      if Next(a, e) != a {
        InFlightAppend(a.tasks, WillLogOut(Find(a.store.rows, h).value), u);
      }
    case LogoutAllCalled(v, now) =>
      ActiveAfterRevokeAll(a.store.rows, v, now, u);
      RevokeAllOnlyRevokes(a.store.rows, v, now);
      SignInsOfRevoked(a.store, RevokeAll(a.store.rows, v, now), u);
    case Resumes(i, now, player, newHash, newExpiry) =>
      if i < |a.tasks| {
        ResumeStaysBounded(a, i, now, player, newHash, newExpiry, u);
      }
    case Fails(i) =>
      if i < |a.tasks| {
        InFlightWithout(a.tasks, i, u);
      }
  }

  /** Over every interleaving, a user's active tokens and won but unfinished refreshes together are
      no more than the tokens that register and login issued them. */
  lemma {:induction false} NoMoreLiveTokensThanSignIns(es: seq<Event>, u: UserId)
    ensures AuthInv(Run(NEW_AUTH, es)) && Bounded(Run(NEW_AUTH, es), u)
  {
    hide AuthInv, Next;
    NewAuthInv();
    if es != [] {
      NoMoreLiveTokensThanSignIns(es[..|es| - 1], u);
      NextKeeps(Run(NEW_AUTH, es[..|es| - 1]), es[|es| - 1]);
      NextStaysBounded(Run(NEW_AUTH, es[..|es| - 1]), es[|es| - 1], u);
    }
  }

  // ---------- one call at a time ----------

  datatype Call =
    | SignIn(userId: UserId, newHash: Hash, newExpiry: int)
    | RefreshCall(payload: Option<UserId>, tokenHash: Hash, now: int, player: bool, newHash: Hash, newExpiry: int)
    | LogoutCall(userId: UserId, tokenHash: Hash, now: int)
    | LogoutAllCall(userId: UserId, now: int)

  function Perform(s: Store, c: Call): Store {
    match c
    case SignIn(u, newHash, newExpiry) => IssueTokens(s, u, newHash, newExpiry, None).0
    case RefreshCall(payload, h, now, player, newHash, newExpiry) =>
        Refresh(s, payload, h, now, player, newHash, newExpiry).0
    case LogoutCall(u, h, now) => Logout(s, u, h, now).0
    case LogoutAllCall(u, now) => LogoutAll(s, u, now)
  }

  function PerformAll(s: Store, cs: seq<Call>): Store {
    if cs == [] then s else Perform(PerformAll(s, cs[..|cs| - 1]), cs[|cs| - 1])
  }

  lemma {:induction false} ActiveCounts(rows: seq<Row>, id: TokenId)
    requires IsActive(rows, id)
    ensures Active(rows, rows[id].userId) > 0
  {
    if id < |rows| - 1 {
      ActiveCounts(rows[..|rows| - 1], id);
    }
  }

  lemma PerformStaysRevoked(s: Store, c: Call, u: UserId)
    requires Active(s.rows, u) == 0 && !(c.SignIn? && c.userId == u)
    ensures Active(Perform(s, c).rows, u) == 0
  {
    hide Find, RevokeAll, Revoke;
    match c
    case SignIn(v, newHash, newExpiry) => ActiveAppend(s.rows, Row(v, newHash, newExpiry, None), u);
    case RefreshCall(payload, h, now, player, newHash, newExpiry) =>
      var checked := Check(s.rows, payload, h, now);
      if checked.Issued? {
        ActiveAfterRevokeAll(s.rows, payload.value, now, u);
        ActiveAfterRevoke(s.rows, checked.id, now, u);
        if IsActive(s.rows, checked.id) {
          ActiveCounts(s.rows, checked.id);
        }
        ActiveAppend(Revoke(s.rows, checked.id, now), Row(payload.value, newHash, newExpiry, None), u);
      }
    case LogoutCall(v, h, now) =>
      if Find(s.rows, h).Some? {
        ActiveAfterRevoke(s.rows, Find(s.rows, h).value, now, u);
      }
    case LogoutAllCall(v, now) => ActiveAfterRevokeAll(s.rows, v, now, u);
  }

  lemma {:induction false} StaysRevoked(s: Store, cs: seq<Call>, u: UserId)
    requires Active(s.rows, u) == 0
    requires forall k :: 0 <= k < |cs| ==> !(cs[k].SignIn? && cs[k].userId == u)
    ensures Active(PerformAll(s, cs).rows, u) == 0
  {
    if cs != [] {
      StaysRevoked(s, cs[..|cs| - 1], u);
      PerformStaysRevoked(PerformAll(s, cs[..|cs| - 1]), cs[|cs| - 1], u);
    }
  }

  /** With one call at a time: presenting a revoked but unexpired token of a user leaves them no
      active token, and they have none until they sign in again. */
  lemma ReuseEndsEverySession(s: Store, u: UserId, h: Hash, now: int, player: bool, newHash: Hash, newExpiry: int,
      cs: seq<Call>)
    requires Check(s.rows, Some(u), h, now).Issued? && !IsActive(s.rows, Check(s.rows, Some(u), h, now).id)
    requires forall k :: 0 <= k < |cs| ==> !(cs[k].SignIn? && cs[k].userId == u)
    ensures var (s', outcome) := Refresh(s, Some(u), h, now, player, newHash, newExpiry);
            outcome == Failed(Reuse) && Active(PerformAll(s', cs).rows, u) == 0
  {
    ActiveAfterRevokeAll(s.rows, u, now, u);
    StaysRevoked(Refresh(s, Some(u), h, now, player, newHash, newExpiry).0, cs, u);
  }

  lemma FindUnique(rows: seq<Row>, id: TokenId)
    requires id < |rows| && HashesUnique(rows)
    ensures Find(rows, rows[id].tokenHash) == Some(id)
  {
  }

  /** A refresh that succeeds swaps one active token for another; presenting the old one once more
      before it expires then revokes the new one too. */
  lemma ReplayRevokesTheSuccessor(s: Store, u: UserId, h: Hash, now: int, newHash: Hash, newExpiry: int,
                                  later: int, player: bool, otherHash: Hash, otherExpiry: int)
    requires HashesUnique(s.rows)
    ensures var (s', outcome) := Refresh(s, Some(u), h, now, true, newHash, newExpiry);
            outcome.Issued? ==>
              && HashesUnique(s'.rows)
              && Active(s'.rows, u) == Active(s.rows, u)
              && IsActive(s'.rows, outcome.id) && s'.rows[outcome.id] == Row(u, newHash, newExpiry, None)
              && s'.parents == s.parents + [Find(s.rows, h)] && !IsActive(s'.rows, Find(s.rows, h).value)
              && (later <= s.rows[Find(s.rows, h).value].expiresAt ==>
                    var (s'', again) := Refresh(s', Some(u), h, later, player, otherHash, otherExpiry);
                    again == Failed(Reuse) && Active(s''.rows, u) == 0 && !IsActive(s''.rows, outcome.id))
  {
    hide Find;
    var (s', outcome) := Refresh(s, Some(u), h, now, true, newHash, newExpiry);
    if outcome.Issued? {
      var id := Find(s.rows, h).value;
      var row := Row(u, newHash, newExpiry, None);
      var revoked := Revoke(s.rows, id, now);
      assert s'.rows == revoked + [row];
      ActiveAfterRevoke(s.rows, id, now, u);
      ActiveAppend(revoked, row, u);
      assert forall i :: 0 <= i < |revoked| ==> revoked[i].tokenHash == s.rows[i].tokenHash && s'.rows[i] == revoked[i];
      assert forall i :: 0 <= i < |revoked| ==> revoked[i].tokenHash != newHash;
      FindUnique(s'.rows, id);
      ActiveAfterRevokeAll(s'.rows, u, later, u);
    }
  }

  lemma FourEvents(a: Auth, e: Event, f: Event)
    ensures Run(a, [e, f, f, f]) == Next(Next(Next(Next(a, e), f), f), f)
  {
    hide Next;
    assert [e, f, f, f][..3] == [e, f, f];
    assert [e, f, f][..2] == [e, f];
    assert [e, f][..1] == [e];
    assert [e][..0] == [];
    assert Run(a, [e]) == Next(a, e);
    assert Run(a, [e, f]) == Next(Next(a, e), f);
  }

  lemma ResumeLast(s: Store, tasks: seq<Task>, t: Task, now: int, player: bool, newHash: Hash, newExpiry: int)
    ensures var (s', more) := Resume(s, t, now, player, newHash, newExpiry);
            Next(Auth(s, tasks + [t]), Resumes(|tasks|, now, player, newHash, newExpiry)) ==
                Auth(s', Appended(tasks, more))
  {
    hide Resume;
    assert WithoutTask(tasks + [t], |tasks|) == tasks;
  }

  /** A refresh that nothing interleaves with is one run of the interleaved protocol. */
  lemma AtomicRefreshIsARun(a: Auth, payload: Option<UserId>, h: Hash, now: int, player: bool, newHash: Hash,
      newExpiry: int)
    ensures var next := Resumes(|a.tasks|, now, player, newHash, newExpiry);
            Run(a, [RefreshCalled(payload, h, now), next, next, next]) ==
            a.(store := Refresh(a.store, payload, h, now, player, newHash, newExpiry).0)
  {
    hide Find, RevokeAll, Revoke, Run, WithoutTask;
    FourEvents(a, RefreshCalled(payload, h, now), Resumes(|a.tasks|, now, player, newHash, newExpiry));
    var checked := Check(a.store.rows, payload, h, now);
    if checked.Issued? {
      var id, u := checked.id, payload.value;
      ResumeLast(a.store, a.tasks, WillRevoke(id, u), now, player, newHash, newExpiry);
      if IsActive(a.store.rows, id) {
        var rotated := a.store.(rows := Revoke(a.store.rows, id, now));
        ResumeLast(rotated, a.tasks, WillFindPlayer(id, u), now, player, newHash, newExpiry);
        ResumeLast(rotated, a.tasks, WillRotate(id, u), now, player, newHash, newExpiry);
      } else {
        ResumeLast(a.store, a.tasks, WillRevokeAll(u), now, player, newHash, newExpiry);
      }
    }
  }

  lemma TwoEvents(a: Auth, e: Event, f: Event)
    ensures Run(a, [e, f]) == Next(Next(a, e), f)
  {
    hide Next;
    assert [e, f][..1] == [e] && [e][..0] == [];
    assert Run(a, [e]) == Next(a, e);
  }

  /** So is a sign-in's issuance. */
  lemma AtomicSignInIsARun(a: Auth, u: UserId, now: int, player: bool, newHash: Hash, newExpiry: int)
    ensures Run(a, [SignedIn(u), Resumes(|a.tasks|, now, player, newHash, newExpiry)]) ==
            a.(store := IssueTokens(a.store, u, newHash, newExpiry, None).0)
  {
    hide Find, Run, WithoutTask, Create;
    TwoEvents(a, SignedIn(u), Resumes(|a.tasks|, now, player, newHash, newExpiry));
    ResumeLast(a.store, a.tasks, WillIssue(u), now, player, newHash, newExpiry);
  }

  /** So is a logout. */
  lemma AtomicLogoutIsARun(a: Auth, u: UserId, h: Hash, now: int, player: bool, newHash: Hash, newExpiry: int)
    ensures Run(a, [LogoutCalled(u, h), Resumes(|a.tasks|, now, player, newHash, newExpiry)]) ==
            a.(store := Logout(a.store, u, h, now).0)
  {
    hide Find, Revoke, Run, WithoutTask, Create;
    TwoEvents(a, LogoutCalled(u, h), Resumes(|a.tasks|, now, player, newHash, newExpiry));
    var stored := Find(a.store.rows, h);
    if stored.Some? {
      ResumeLast(a.store, a.tasks, WillLogOut(stored.value), now, player, newHash, newExpiry);
    }
  }

  // ---------- calls interleaved ----------

  predicate CanIssue(t: Task, u: UserId) {
    (t.WillFindPlayer? || t.WillRotate? || t.WillIssue?) && t.userId == u
  }

  predicate Pending(tasks: seq<Task>, u: UserId) {
    exists k :: 0 <= k < |tasks| && CanIssue(tasks[k], u)
  }

  predicate NoSignIn(es: seq<Event>, u: UserId) {
    forall k :: 0 <= k < |es| ==> es[k] != SignedIn(u)
  }

  lemma PendingWithout(tasks: seq<Task>, i: nat, t: Task, u: UserId)
    requires !Pending(tasks, u)
    ensures i < |tasks| ==> !Pending(WithoutTask(tasks, i), u)
    ensures !CanIssue(t, u) ==> !Pending(tasks + [t], u)
    ensures i < |tasks| && !CanIssue(t, u) ==> !Pending(WithoutTask(tasks, i) + [t], u)
  {
    if i < |tasks| {
      var less := WithoutTask(tasks, i);
      assert forall k :: 0 <= k < |less| ==> less[k] == if k < i then tasks[k] else tasks[k + 1];
      assert forall k :: 0 <= k < |less + [t]| ==> (less + [t])[k] == if k < |less| then less[k] else t;
    }
    assert forall k :: 0 <= k < |tasks + [t]| ==> (tasks + [t])[k] == if k < |tasks| then tasks[k] else t;
  }

  lemma ResumeStaysRevoked(a: Auth, i: nat, now: int, player: bool, newHash: Hash, newExpiry: int, u: UserId)
    requires AuthInv(a) && Active(a.store.rows, u) == 0 && !Pending(a.tasks, u) && i < |a.tasks|
    ensures var a' := Next(a, Resumes(i, now, player, newHash, newExpiry));
            Active(a'.store.rows, u) == 0 && !Pending(a'.tasks, u)
  {
    hide Find, RevokeAll, Revoke, WithoutTask, Pending, ChainsSound, RotationsSound;
    var t, rows := a.tasks[i], a.store.rows;
    assert !CanIssue(t, u) by {
      NonePending(a.tasks, i, u);
    }
    var more := Resume(a.store, t, now, player, newHash, newExpiry).1;
    PendingWithout(a.tasks, i, if more.Some? then more.value else WillRevokeAll(u), u);
    match t
    case WillRevoke(id, v) =>
      ActiveAfterRevoke(rows, id, now, u);
      RevokerIsOwner(a, i);
      if IsActive(rows, id) {
        ActiveCounts(rows, id);
      }
    case WillFindPlayer(id, v) =>
    case WillRotate(id, v) => ActiveAppend(rows, Row(v, newHash, newExpiry, None), u);
    case WillRevokeAll(v) => ActiveAfterRevokeAll(rows, v, now, u);
    case WillIssue(v) => ActiveAppend(rows, Row(v, newHash, newExpiry, None), u);
    case WillLogOut(id) => ActiveAfterRevoke(rows, id, now, u);
  }

  lemma NonePending(tasks: seq<Task>, i: nat, u: UserId)
    requires !Pending(tasks, u) && i < |tasks|
    ensures !CanIssue(tasks[i], u)
  {
  }

  lemma NextStaysRevoked(a: Auth, e: Event, u: UserId)
    requires AuthInv(a) && Active(a.store.rows, u) == 0 && !Pending(a.tasks, u) && e != SignedIn(u)
    ensures Active(Next(a, e).store.rows, u) == 0 && !Pending(Next(a, e).tasks, u)
  {
    hide Find, RevokeAll, Revoke, WithoutTask, Pending, AuthInv, Resume;
    match e
    case RefreshCalled(payload, h, now) =>
      if Next(a, e) != a {
        PendingWithout(a.tasks, 0, WillRevoke(Check(a.store.rows, payload, h, now).id, payload.value), u);
      }
    case SignedIn(v) => PendingWithout(a.tasks, 0, WillIssue(v), u);
    case LogoutCalled(v, h) =>
      if Next(a, e) != a {
        PendingWithout(a.tasks, 0, WillLogOut(Find(a.store.rows, h).value), u);
      }
    case LogoutAllCalled(v, now) => ActiveAfterRevokeAll(a.store.rows, v, now, u);
    case Resumes(i, now, player, newHash, newExpiry) =>
      if i < |a.tasks| {
        ResumeStaysRevoked(a, i, now, player, newHash, newExpiry, u);
      }
    case Fails(i) => PendingWithout(a.tasks, i, WillRevokeAll(u), u);
  }

  lemma {:induction false} RunStaysRevoked(a: Auth, es: seq<Event>, u: UserId)
    requires AuthInv(a) && Active(a.store.rows, u) == 0 && !Pending(a.tasks, u) && NoSignIn(es, u)
    ensures Active(Run(a, es).store.rows, u) == 0 && !Pending(Run(a, es).tasks, u)
  {
    hide AuthInv, Next, Pending;
    if es != [] {
      RunStaysRevoked(a, es[..|es| - 1], u);
      RunKeeps(a, es[..|es| - 1]);
      NextStaysRevoked(Run(a, es[..|es| - 1]), es[|es| - 1], u);
    }
  }

  function HashAbove(rows: seq<Row>): (h: Hash)
    ensures forall i :: 0 <= i < |rows| ==> rows[i].tokenHash < h
  {
    if rows == [] then 0
    else
      var before, last := HashAbove(rows[..|rows| - 1]), rows[|rows| - 1].tokenHash;
      if last < before then before else last + 1
  }

  lemma IssueMakesActive(a: Auth, k: nat, u: UserId)
    requires k < |a.tasks| && (a.tasks[k].WillRotate? || a.tasks[k].WillIssue?) && a.tasks[k].userId == u
    ensures Active(Next(a, Resumes(k, 0, true, HashAbove(a.store.rows), 0)).store.rows, u) > 0
  {
    var row := Row(u, HashAbove(a.store.rows), 0, None);
    ActiveAppend(a.store.rows, row, u);
  }

  /** What the pending call can go on to do. */
  lemma PendingCanIssue(a: Auth, k: nat, u: UserId)
    requires k < |a.tasks| && CanIssue(a.tasks[k], u)
    ensures exists es :: NoSignIn(es, u) && Active(Run(a, es).store.rows, u) > 0
  {
    hide Active;
    var h := HashAbove(a.store.rows);
    if a.tasks[k].WillFindPlayer? {
      var first, second := Resumes(k, 0, true, h, 0), Resumes(|a.tasks| - 1, 0, true, h, 0);
      var mid := Next(a, first);
      assert mid.store == a.store && mid.tasks[|a.tasks| - 1] == WillRotate(a.tasks[k].id, u);
      IssueMakesActive(mid, |a.tasks| - 1, u);
      assert [first, second][..1] == [first] && [first][..0] == [];
      assert Run(a, [first]) == mid;
      assert Run(a, [first, second]) == Next(mid, second);
      assert NoSignIn([first, second], u);
    } else {
      var only := Resumes(k, 0, true, h, 0);
      IssueMakesActive(a, k, u);
      assert [only][..0] == [];
      assert Run(a, [only]) == Next(a, only);
      assert NoSignIn([only], u);
    }
  }

  /** With calls interleaved: once all of a user's tokens are revoked, by a logout everywhere or by
      detected reuse, none becomes active without a new sign-in exactly when no refresh that had
      already won its token, and no sign-in, was still in flight for them. */
  lemma RevocationLastsExactlyWhen(a: Auth, u: UserId)
    requires AuthInv(a) && Active(a.store.rows, u) == 0
    ensures (forall es :: NoSignIn(es, u) ==> Active(Run(a, es).store.rows, u) == 0) <==> !Pending(a.tasks, u)
  {
    hide AuthInv, Active, Run, NoSignIn, CanIssue;
    if Pending(a.tasks, u) {
      var k :| 0 <= k < |a.tasks| && CanIssue(a.tasks[k], u);
      PendingCanIssue(a, k, u);
    } else {
      forall es | NoSignIn(es, u)
        ensures Active(Run(a, es).store.rows, u) == 0
      {
        RunStaysRevoked(a, es, u);
      }
    }
  }

  /** Both ways of revoking everything reach such a state, and leave the other calls in flight. */
  lemma RevokedEverywhere(a: Auth, u: UserId, now: int, i: nat, player: bool, newHash: Hash, newExpiry: int)
    requires AuthInv(a)
    ensures var all := Next(a, LogoutAllCalled(u, now));
            AuthInv(all) && Active(all.store.rows, u) == 0 && all.tasks == a.tasks
    ensures i < |a.tasks| && a.tasks[i] == WillRevokeAll(u) ==>
              var reused := Next(a, Resumes(i, now, player, newHash, newExpiry));
              AuthInv(reused) && Active(reused.store.rows, u) == 0 && reused.tasks == WithoutTask(a.tasks, i)
  {
    hide AuthInv, RevokeAll;
    NextKeeps(a, LogoutAllCalled(u, now));
    NextKeeps(a, Resumes(i, now, player, newHash, newExpiry));
    ActiveAfterRevokeAll(a.store.rows, u, now, u);
  }

  lemma FiveEvents(a: Auth, e: Event, f: Event, g: Event, h: Event, i: Event)
    ensures Run(a, [e, f, g, h, i]) == Next(Next(Next(Next(Next(a, e), f), g), h), i)
  {
    hide Next;
    assert [e, f, g, h, i][..4] == [e, f, g, h];
    assert [e, f, g, h][..3] == [e, f, g];
    assert [e, f, g][..2] == [e, f];
    assert [e, f][..1] == [e];
    assert [e][..0] == [];
    assert Run(a, [e]) == Next(a, e);
    assert Run(a, [e, f]) == Next(Next(a, e), f);
    assert Run(a, [e, f, g]) == Next(Next(Next(a, e), f), g);
  }

  lemma OutlivedStates(u: UserId)
    ensures var issue, resumes := Resumes(0, 0, true, 0, 10), Resumes(0, 0, true, 1, 10);
            && Next(Next(NEW_AUTH, SignedIn(u)), issue) == Auth(Store([Row(u, 0, 10, None)], [None]), [])
            && Next(Auth(Store([Row(u, 0, 10, None)], [None]), []), RefreshCalled(Some(u), 0, 0)) ==
               Auth(Store([Row(u, 0, 10, None)], [None]), [WillRevoke(0, u)])
            && Next(Auth(Store([Row(u, 0, 10, None)], [None]), [WillRevoke(0, u)]), resumes) ==
               Auth(Store([Row(u, 0, 10, Some(0))], [None]), [WillFindPlayer(0, u)])
  {
    assert Next(NEW_AUTH, SignedIn(u)) == Auth(NEW_STORE, [WillIssue(u)]);
  }

  /** A logout everywhere that slips in between a refresh's compare-and-set and its create leaves the
      user signed in. */
  lemma LogoutAllCanBeOutlived(u: UserId)
    ensures var resumes := Resumes(0, 0, true, 1, 10);
            var es :=
                [SignedIn(u), Resumes(0, 0, true, 0, 10), RefreshCalled(Some(u), 0, 0), resumes, LogoutAllCalled(u, 0)];
            && Active(Run(NEW_AUTH, es).store.rows, u) == 0
            && Active(Next(Next(Run(NEW_AUTH, es), resumes), resumes).store.rows, u) == 1
  {
    var issue, resumes := Resumes(0, 0, true, 0, 10), Resumes(0, 0, true, 1, 10);
    var won := Auth(Store([Row(u, 0, 10, Some(0))], [None]), [WillFindPlayer(0, u)]);
    OutlivedStates(u);
    FiveEvents(NEW_AUTH, SignedIn(u), issue, RefreshCalled(Some(u), 0, 0), resumes, LogoutAllCalled(u, 0));
    assert Next(won, LogoutAllCalled(u, 0)) == won;
    assert Next(won, resumes) == Auth(won.store, [WillRotate(0, u)]);
    var end := Next(Auth(won.store, [WillRotate(0, u)]), resumes);
    assert end.store.rows == [Row(u, 0, 10, Some(0))] + [Row(u, 1, 10, None)];
    ActiveAppend(won.store.rows, Row(u, 1, 10, None), u);
  }
}
