/** The token repository and the service as the program keeps them: rows created and revoked in
    place by calls made one after another. */
module AuthServices {
  import opened OrderedMaps
  import Spec = RefreshTokens
  import opened RefreshTokens

  class RefreshTokenRepository {
    var rows: seq<Row>
    ghost var parents: seq<Option<TokenId>>

    ghost function Model(): Store
      reads this
    {
      Store(rows, parents)
    }

    constructor ()
      ensures Model() == NEW_STORE
    {
      rows, parents := [], [];
    }

    /** The row with the hash, looked for from the newest back. */
    method FindByTokenHash(tokenHash: Hash) returns (found: Option<TokenId>)
      ensures found == Find(rows, tokenHash)
    {
      var n := |rows|;
      assert rows[..n] == rows;
      while n > 0
        invariant n <= |rows| && Find(rows, tokenHash) == Find(rows[..n], tokenHash)
      {
        assert rows[..n][..n - 1] == rows[..n - 1];
        n := n - 1;
        if rows[n].tokenHash == tokenHash {
          return Some(n);
        }
      }
      found := None;
    }

    /** Adds an active row unless its hash is taken. */
    method Create(userId: UserId, tokenHash: Hash, expiresAt: int,
        ghost parent: Option<TokenId>) returns (id: Option<TokenId>)
      modifies this
      ensures Model() == Spec.Create(old(Model()), userId, tokenHash, expiresAt, parent).0
      ensures id == if Spec.Create(old(Model()), userId, tokenHash, expiresAt, parent).1 then Some(old(|rows|))
              else None
    {
      var taken := FindByTokenHash(tokenHash);
      if taken.Some? {
        return None;
      }
      id := Some(|rows|);
      rows, parents := rows + [Row(userId, tokenHash, expiresAt, None)], parents + [parent];
    }

    method Revoke(id: TokenId, now: int)
      requires id < |rows|
      modifies this`rows
      ensures rows == Spec.Revoke(old(rows), id, now)
    {
      rows := rows[id := rows[id].(revokedAt := Some(now))];
    }

    /** Revokes the row if no one has before; tells whether it did. */
    method RevokeIfActive(id: TokenId, now: int) returns (revoked: bool)
      requires id < |rows|
      modifies this`rows
      ensures revoked == IsActive(old(rows), id) && !IsActive(rows, id)
      ensures rows == if revoked then Spec.Revoke(old(rows), id, now) else old(rows)
    {
      revoked := rows[id].revokedAt == None;
      if revoked {
        Revoke(id, now);
      }
    }

    method RevokeAllForUser(userId: UserId, now: int)
      modifies this`rows
      ensures rows == RevokeAll(old(rows), userId, now)
    {
      ghost var before := rows;
      for i := 0 to |rows|
        invariant |rows| == |before|
        invariant forall k :: 0 <= k < |before| ==>
                    rows[k] == if k < i then RevokedFor(before[k], userId, now) else before[k]
      {
        if rows[i].userId == userId && rows[i].revokedAt == None {
          Revoke(i, now);
        }
      }
    }
  }

  class AuthService {
    const refreshTokens: RefreshTokenRepository

    constructor (refreshTokens: RefreshTokenRepository)
      ensures this.refreshTokens == refreshTokens
    {
      this.refreshTokens := refreshTokens;
    }

    /** What register and login do to the table, with no parent, and a refresh with one. */
    method IssueTokens(userId: UserId, tokenHash: Hash, expiresAt: int,
        ghost parent: Option<TokenId>) returns (outcome: Outcome)
      modifies refreshTokens
      ensures (refreshTokens.Model(), outcome) ==
              Spec.IssueTokens(old(refreshTokens.Model()), userId, tokenHash, expiresAt, parent)
    {
      var id := refreshTokens.Create(userId, tokenHash, expiresAt, parent);
      outcome := if id.Some? then Issued(id.value) else Failed(DuplicateHash);
    }

    /** `payload` is what the token's signature vouches for; `player` tells whether the user has a
        player, and the new hash and expiry are those of the token that would be issued. */
    method Refresh(payload: Option<UserId>, tokenHash: Hash, now: int, player: bool, newHash: Hash,
        newExpiry: int) returns (outcome: Outcome)
      modifies refreshTokens
      ensures (refreshTokens.Model(), outcome) ==
              Spec.Refresh(old(refreshTokens.Model()), payload, tokenHash, now, player, newHash, newExpiry)
    {
      hide Find, Spec.Create, RevokeAll, Spec.Revoke;
      if payload == None {
        return Failed(InvalidToken);
      }
      var stored := refreshTokens.FindByTokenHash(tokenHash);
      if stored == None || refreshTokens.rows[stored.value].expiresAt < now {
        return Failed(RevokedOrExpired);
      }
      if refreshTokens.rows[stored.value].userId != payload.value {
        return Failed(WrongUser);
      }
      var revoked := refreshTokens.RevokeIfActive(stored.value, now);
      if !revoked {
        refreshTokens.RevokeAllForUser(refreshTokens.rows[stored.value].userId, now);
        return Failed(Reuse);
      }
      if !player {
        return Failed(NoPlayer);
      }
      outcome := IssueTokens(payload.value, newHash, newExpiry, stored);
    }

    method Logout(userId: UserId, tokenHash: Hash, now: int) returns (outcome: Outcome)
      modifies refreshTokens
      ensures (refreshTokens.Model(), outcome) == Spec.Logout(old(refreshTokens.Model()), userId, tokenHash, now)
    {
      var stored := refreshTokens.FindByTokenHash(tokenHash);
      if stored == None {
        return Done;
      }
      if refreshTokens.rows[stored.value].userId != userId {
        return Failed(NotOwner);
      }
      if refreshTokens.rows[stored.value].revokedAt == None {
        refreshTokens.Revoke(stored.value, now);
      }
      outcome := Done;
    }

    method LogoutAll(userId: UserId, now: int)
      modifies refreshTokens
      ensures refreshTokens.Model() == Spec.LogoutAll(old(refreshTokens.Model()), userId, now)
    {
      refreshTokens.RevokeAllForUser(userId, now);
    }
  }
}
