/** Which refreshes and logouts succeed and what each does to the rows, and what a successor is owed to. */
module RefreshRules {
  import opened OrderedMaps
  import opened RefreshTokens

  /** Row `i` is revoked at `now`, and no other row differs. */
  predicate OnlyRevokedAt(rows: seq<Row>, rows': seq<Row>, i: TokenId, now: int)
    requires i < |rows|
  {
    && |rows'| == |rows|
    && rows'[i] == Row(rows[i].userId, rows[i].tokenHash, rows[i].expiresAt, Some(now))
    && forall j :: 0 <= j < |rows| && j != i ==> rows'[j] == rows[j]
  }

  /** Every active row of the user is revoked at `now`, and no other row differs. */
  predicate AllRevokedAt(rows: seq<Row>, rows': seq<Row>, u: UserId, now: int) {
    && |rows'| == |rows|
    && forall j :: 0 <= j < |rows| ==>
         rows'[j] == if rows[j].userId == u && rows[j].revokedAt == None
                     then Row(u, rows[j].tokenHash, rows[j].expiresAt, Some(now)) else rows[j]
  }

  predicate Used(rows: seq<Row>, h: Hash) {
    exists j :: 0 <= j < |rows| && rows[j].tokenHash == h
  }

  lemma FindIs(rows: seq<Row>, h: Hash, i: TokenId)
    requires HashesUnique(rows) && i < |rows| && rows[i].tokenHash == h
    ensures Find(rows, h) == Some(i)
  {
  }

  lemma IssueIs(s: Store, u: UserId, h: Hash, expiresAt: int, parent: Option<TokenId>)
    ensures var (s', outcome) := IssueTokens(s, u, h, expiresAt, parent);
            if Used(s.rows, h) then s' == s && outcome == Failed(DuplicateHash)
            else
              && outcome == Issued(|s.rows|)
              && s'.rows == s.rows + [Row(u, h, expiresAt, None)] && s'.parents == s.parents + [parent]
  {
  }

  /** What a refresh does with each kind of stored token: an unsigned or an expired one, or somebody
      else's, changes nothing; a revoked one costs its user every session; an active one is revoked, and
      gets a successor if the user still has a player and the new hash is free. */
  lemma RefreshIs(s: Store, i: TokenId, payload: Option<UserId>, now: int, player: bool, newHash: Hash, newExpiry: int)
    requires HashesUnique(s.rows) && i < |s.rows|
    ensures var row := s.rows[i];
            var (s', outcome) := Refresh(s, payload, row.tokenHash, now, player, newHash, newExpiry);
            if payload == None then s' == s && outcome == Failed(InvalidToken)
            else if row.expiresAt < now then s' == s && outcome == Failed(RevokedOrExpired)
            else if row.userId != payload.value then s' == s && outcome == Failed(WrongUser)
            else if row.revokedAt.Some? then
              outcome == Failed(Reuse) && s'.parents == s.parents && AllRevokedAt(s.rows, s'.rows, row.userId, now)
            else if !player || Used(s.rows, newHash) then
              && outcome == Failed(if player then DuplicateHash else NoPlayer)
              && s'.parents == s.parents && OnlyRevokedAt(s.rows, s'.rows, i, now)
            else
              && outcome == Issued(|s.rows|)
              && s'.parents == s.parents + [Some(i)] && |s'.rows| == |s.rows| + 1
              && OnlyRevokedAt(s.rows, s'.rows[..|s.rows|], i, now)
              && s'.rows[|s.rows|] == Row(row.userId, newHash, newExpiry, None)
  {
    hide Find, HashesUnique;
    FindIs(s.rows, s.rows[i].tokenHash, i);
    var rotated := s.(rows := Revoke(s.rows, i, now));
    if payload == Some(s.rows[i].userId) {
      IssueIs(rotated, payload.value, newHash, newExpiry, Some(i));
      UsedAfterRevoke(s.rows, i, now, newHash);
    }
  }

  lemma UsedAfterRevoke(rows: seq<Row>, i: TokenId, now: int, h: Hash)
    ensures Used(Revoke(rows, i, now), h) <==> Used(rows, h)
  {
    var rows' := Revoke(rows, i, now);
    assert forall j :: 0 <= j < |rows| ==> rows'[j].tokenHash == rows[j].tokenHash;
  }

  /** A token that is not stored changes nothing. */
  lemma RefreshOfUnknown(s: Store, payload: Option<UserId>, h: Hash, now: int, player: bool, newHash: Hash,
      newExpiry: int)
    requires !Used(s.rows, h)
    ensures Refresh(s, payload, h, now, player, newHash, newExpiry) ==
            (s, Failed(if payload == None then InvalidToken else RevokedOrExpired))
  {
  }

  /** A refresh issues a token exactly when the presented one is stored, active, unexpired and the
      signed user's own, that user still has a player, and the new hash is free. */
  lemma RefreshSucceedsExactlyWhen(s: Store, payload: Option<UserId>, h: Hash, now: int, player: bool, newHash: Hash,
      newExpiry: int)
    requires HashesUnique(s.rows)
    ensures Refresh(s, payload, h, now, player, newHash, newExpiry).1.Issued? <==>
            && (exists i :: 0 <= i < |s.rows| && s.rows[i].tokenHash == h && payload == Some(s.rows[i].userId)
                            && s.rows[i].revokedAt == None && now <= s.rows[i].expiresAt)
            && player && forall j :: 0 <= j < |s.rows| ==> s.rows[j].tokenHash != newHash
  {
    hide Refresh, HashesUnique, OnlyRevokedAt, AllRevokedAt;
    if i :| 0 <= i < |s.rows| && s.rows[i].tokenHash == h {
      RefreshIs(s, i, payload, now, player, newHash, newExpiry);
      OnlyOneHas(s.rows, h, i);
    } else {
      RefreshOfUnknown(s, payload, h, now, player, newHash, newExpiry);
    }
  }

  lemma OnlyOneHas(rows: seq<Row>, h: Hash, i: TokenId)
    requires HashesUnique(rows) && i < |rows| && rows[i].tokenHash == h
    ensures forall j :: 0 <= j < |rows| && rows[j].tokenHash == h ==> j == i
  {
  }

  /** A logout revokes the user's active token, refuses another user's, and has nothing to do for one
      that is revoked already. */
  lemma LogoutIs(s: Store, u: UserId, i: TokenId, now: int)
    requires HashesUnique(s.rows) && i < |s.rows|
    ensures var row := s.rows[i];
            var (s', outcome) := Logout(s, u, row.tokenHash, now);
            && s'.parents == s.parents
            && (if row.userId != u then s' == s && outcome == Failed(NotOwner)
                else if row.revokedAt.Some? then s' == s && outcome == Done
                else outcome == Done && OnlyRevokedAt(s.rows, s'.rows, i, now))
  {
    hide Find, HashesUnique;
    FindIs(s.rows, s.rows[i].tokenHash, i);
  }

  /** Nor for one that is not stored. */
  lemma LogoutOfUnknown(s: Store, u: UserId, h: Hash, now: int)
    requires !Used(s.rows, h)
    ensures Logout(s, u, h, now) == (s, Done)
  {
  }

  lemma LogoutAllIs(s: Store, u: UserId, now: int)
    ensures LogoutAll(s, u, now).parents == s.parents && AllRevokedAt(s.rows, LogoutAll(s, u, now).rows, u, now)
  {
  }

  // ---------- calls interleaved ----------

  /** However calls interleave, a refresh goes on past its checks exactly for a stored, unexpired token
      of the signed user. */
  lemma RefreshBeginsExactlyWhen(a: Auth, i: TokenId, payload: Option<UserId>, now: int)
    requires AuthInv(a) && i < |a.store.rows|
    ensures var row := a.store.rows[i];
            Next(a, RefreshCalled(payload, row.tokenHash, now)) ==
            if payload == Some(row.userId) && now <= row.expiresAt
            then Auth(a.store, a.tasks + [WillRevoke(i, row.userId)]) else a
  {
    hide Find, HashesUnique, RotationsSound;
    FindIs(a.store.rows, a.store.rows[i].tokenHash, i);
  }

  /** Call `n` presented this token, signed for its user, no later than its expiry. */
  predicate Presents(e: Event, row: Row) {
    e.RefreshCalled? && e.tokenHash == row.tokenHash && e.payload == Some(row.userId) && e.now <= row.expiresAt
  }

  predicate Presented(es: seq<Event>, row: Row) {
    exists n :: 0 <= n < |es| && Presents(es[n], row)
  }

  predicate HasSignedIn(es: seq<Event>, u: UserId) {
    exists n :: 0 <= n < |es| && es[n] == SignedIn(u)
  }

  /** The row, or the call that may yet create one, has what it is owed to among the events. */
  predicate RowOwed(es: seq<Event>, s: Store, i: TokenId)
    requires i < |s.rows| && i < |s.parents|
  {
    match s.parents[i]
    case None => HasSignedIn(es, s.rows[i].userId)
    case Some(p) => p < |s.rows| && Presented(es, s.rows[p])
  }

  predicate TaskOwed(es: seq<Event>, s: Store, t: Task) {
    match t
    case WillRevoke(id, _) => id < |s.rows| && Presented(es, s.rows[id])
    case WillFindPlayer(id, _) => id < |s.rows| && Presented(es, s.rows[id])
    case WillRotate(id, _) => id < |s.rows| && Presented(es, s.rows[id])
    case WillIssue(u) => HasSignedIn(es, u)
    case _ => true
  }

  predicate Owed(es: seq<Event>, a: Auth) {
    && |a.store.parents| == |a.store.rows|
    && (forall i :: 0 <= i < |a.store.rows| ==> RowOwed(es, a.store, i))
    && (forall k :: 0 <= k < |a.tasks| ==> TaskOwed(es, a.store, a.tasks[k]))
  }

  /** Rows are only added, and keep their users, hashes and expiry times. */
  predicate SameTokens(rows: seq<Row>, rows': seq<Row>) {
    && |rows| <= |rows'|
    && forall i :: 0 <= i < |rows| ==>
         && rows'[i].userId == rows[i].userId && rows'[i].tokenHash == rows[i].tokenHash
         && rows'[i].expiresAt == rows[i].expiresAt
  }

  lemma OneMoreEvent(es: seq<Event>, e: Event, s: Store, s': Store)
    requires SameTokens(s.rows, s'.rows)
    ensures forall t: Task :: TaskOwed(es, s, t) ==> TaskOwed(es + [e], s', t)
    ensures forall i: TokenId :: (i < |s.rows| && i < |s.parents| && i < |s'.parents| && s'.parents[i] == s.parents[i]
              && RowOwed(es, s, i)) ==> RowOwed(es + [e], s', i)
  {
    assert forall n :: 0 <= n < |es| ==> (es + [e])[n] == es[n];
    forall row: Row, row': Row | Presented(es, row) && row'.tokenHash == row.tokenHash && row'.userId == row.userId
        && row'.expiresAt == row.expiresAt
      ensures Presented(es + [e], row')
    {
      var n :| 0 <= n < |es| && Presents(es[n], row);
      assert Presents((es + [e])[n], row');
    }
    forall u | HasSignedIn(es, u)
      ensures HasSignedIn(es + [e], u)
    {
      var n :| 0 <= n < |es| && es[n] == SignedIn(u);
      assert (es + [e])[n] == SignedIn(u);
    }
  }

  lemma OwedAfter(es: seq<Event>, e: Event, a: Auth, a': Auth)
    requires Owed(es, a) && SameTokens(a.store.rows, a'.store.rows)
    requires |a'.store.parents| == |a'.store.rows| && a.store.parents <= a'.store.parents
    requires forall i: TokenId :: |a.store.rows| <= i < |a'.store.rows| ==> RowOwed(es + [e], a'.store, i)
    requires forall t :: t in a'.tasks ==> t in a.tasks || TaskOwed(es + [e], a'.store, t)
    ensures Owed(es + [e], a')
  {
    hide RowOwed, TaskOwed, SameTokens;
    OneMoreEvent(es, e, a.store, a'.store);
    forall k | 0 <= k < |a'.tasks|
      ensures TaskOwed(es + [e], a'.store, a'.tasks[k])
    {
      assert a'.tasks[k] in a'.tasks;
    }
  }

  lemma CreateSame(s: Store, u: UserId, h: Hash, expiresAt: int, parent: Option<TokenId>)
    ensures var s' := Create(s, u, h, expiresAt, parent).0;
            && SameTokens(s.rows, s'.rows)
            && (s' == s || (s'.rows == s.rows + [Row(u, h, expiresAt, None)] && s'.parents == s.parents + [parent]))
  {
  }

  lemma RevokeSame(rows: seq<Row>, id: TokenId, u: UserId, now: int)
    ensures SameTokens(rows, rows) && SameTokens(rows, Revoke(rows, id, now))
    ensures SameTokens(rows, RevokeAll(rows, u, now))
    ensures |Revoke(rows, id, now)| == |RevokeAll(rows, u, now)| == |rows|
  {
  }

  lemma WithoutTaskIn(tasks: seq<Task>, i: nat)
    requires i < |tasks|
    ensures forall t :: t in WithoutTask(tasks, i) ==> t in tasks
  {
  }

  lemma ResumeOwed(es: seq<Event>, a: Auth, i: nat, now: int, player: bool, newHash: Hash, newExpiry: int)
    requires Owed(es, a) && i < |a.tasks|
    ensures var e := Resumes(i, now, player, newHash, newExpiry);
            Owed(es + [e], Next(a, e))
  {
    hide SameTokens, Create, Revoke, RevokeAll, WithoutTask, Presented, HasSignedIn, IsActive;
    var e, t := Resumes(i, now, player, newHash, newExpiry), a.tasks[i];
    var a' := Next(a, e);
    WithoutTaskIn(a.tasks, i);
    match t {
      case WillRotate(id, u) => CreateSame(a.store, u, newHash, newExpiry, Some(id));
      case WillIssue(u) => CreateSame(a.store, u, newHash, newExpiry, None);
      case WillRevoke(id, u) => RevokeSame(a.store.rows, id, u, now);
      case WillFindPlayer(id, u) => RevokeSame(a.store.rows, id, u, now);
      case WillRevokeAll(u) => RevokeSame(a.store.rows, 0, u, now);
      case WillLogOut(id) => RevokeSame(a.store.rows, id, "", now);
    }
    OneMoreEvent(es, e, a.store, a'.store);
    assert TaskOwed(es, a.store, t);
    OwedAfter(es, e, a, a');
  }

  lemma NextOwed(es: seq<Event>, a: Auth, e: Event)
    requires AuthInv(a) && Owed(es, a)
    ensures Owed(es + [e], Next(a, e))
  {
    hide AuthInv, SameTokens, Revoke, RevokeAll, WithoutTask, Resume, Owed, RowOwed;
    var u := match e case LogoutAllCalled(u, _) => u case _ => "";
    var at := match e case LogoutAllCalled(_, now) => now case _ => 0;
    RevokeSame(a.store.rows, 0, u, at);
    assert |a.store.parents| == |a.store.rows| by { AuthInvLengths(a); }
    match e
    case Resumes(i, now, player, newHash, newExpiry) =>
      if i < |a.tasks| {
        ResumeOwed(es, a, i, now, player, newHash, newExpiry);
      } else {
        OwedAfter(es, e, a, a);
      }
    case Fails(i) =>
      if i < |a.tasks| {
        WithoutTaskIn(a.tasks, i);
      }
      OwedAfter(es, e, a, Next(a, e));
    case _ =>
      assert (es + [e])[|es|] == e;
      OwedAfter(es, e, a, Next(a, e));
  }

  lemma AuthInvLengths(a: Auth)
    requires AuthInv(a)
    ensures |a.store.parents| == |a.store.rows|
  {
  }

  lemma {:induction false} RunOwed(es: seq<Event>)
    ensures AuthInv(Run(NEW_AUTH, es)) && Owed(es, Run(NEW_AUTH, es))
  {
    hide AuthInv, Next;
    NewAuthInv();
    RunKeeps(NEW_AUTH, es);
    if es != [] {
      var init, e := es[..|es| - 1], es[|es| - 1];
      RunOwed(init);
      NextOwed(init, Run(NEW_AUTH, init), e);
      assert es == init + [e];
    }
  }

  /** Over every interleaving, a token is the successor only of one that a refresh presented, signed for
      its user, no later than its expiry; and a token without a predecessor is owed to a sign-in of its
      user. An expired token gets no successor, however long the call that presents it takes. */
  lemma SuccessorsAreOwed(es: seq<Event>, i: TokenId)
    ensures var s := Run(NEW_AUTH, es).store;
            i < |s.rows| ==>
              && i < |s.parents|
              && (s.parents[i] == None ==> exists n :: 0 <= n < |es| && es[n] == SignedIn(s.rows[i].userId))
              && (s.parents[i].Some? ==>
                    && s.parents[i].value < |s.rows|
                    && var was := s.rows[s.parents[i].value];
                       exists n :: 0 <= n < |es| && es[n].RefreshCalled? && es[n].tokenHash == was.tokenHash
                                   && es[n].payload == Some(was.userId) && es[n].now <= was.expiresAt)
  {
    hide Run, AuthInv;
    RunOwed(es);
    var s := Run(NEW_AUTH, es).store;
    if i < |s.rows| {
      assert RowOwed(es, s, i);
    }
    if i < |s.rows| && s.parents[i].Some? {
      var was := s.rows[s.parents[i].value];
      var n :| 0 <= n < |es| && Presents(es[n], was);
      assert es[n].RefreshCalled? && es[n].tokenHash == was.tokenHash;
    }
  }
}
