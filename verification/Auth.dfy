/** backend/app/modules/auth/repository.py and service.py: issuing, rotating and
    revoking refresh tokens on the stored rows. */
module Auth {
  import opened Prelude
  import opened AuthRules

  datatype AuthError = InvalidToken | TokenReuse | TokenExpired | SessionInvalid | UserInactive

  class AuthRepository {
    var sessions: seq<Session>
    var tokens: seq<RefreshToken>

    constructor ()
      ensures View() == NO_SESSIONS
    {
      sessions, tokens := [], [];
    }

    function View(): AuthState
      reads this
    {
      AuthState(sessions, tokens)
    }

    method CreateSession(session: Session) returns (id: nat)
      modifies this`sessions
      ensures id == |old(sessions)| && sessions == old(sessions) + [session]
    {
      id := |sessions|;
      sessions := sessions + [session];
    }

    method AddRefreshToken(token: RefreshToken) returns (id: nat)
      modifies this`tokens
      ensures id == |old(tokens)| && tokens == old(tokens) + [token]
    {
      id := |tokens|;
      tokens := tokens + [token];
    }

    method GetRefreshByHash(token: nat) returns (stored: Option<RefreshToken>)
      ensures stored == if token < |tokens| then Some(tokens[token]) else None
    {
      stored := if token < |tokens| then Some(tokens[token]) else None;
    }

    /** UPDATE every not yet revoked token of the session. */
    method RevokeSessionTokens(session: nat, now: Time)
      modifies this`tokens
      ensures tokens == Revoked(old(tokens), session, now)
      ensures |tokens| == |old(tokens)|
      ensures forall i :: 0 <= i < |tokens| ==>
                var was := old(tokens)[i];
                && tokens[i] == was.(revokedAt := tokens[i].revokedAt)
                && tokens[i].revokedAt == if was.session == session && was.revokedAt.None? then Some(now)
                                          else was.revokedAt
    {
      for i := 0 to |tokens|
        invariant |tokens| == |old(tokens)|
        invariant forall k :: 0 <= k < i ==> tokens[k] == Revoked(old(tokens), session, now)[k]
        invariant forall k :: i <= k < |tokens| ==> tokens[k] == old(tokens)[k]
      {
        if tokens[i].session == session && tokens[i].revokedAt.None? {
          tokens := tokens[i := tokens[i].(revokedAt := Some(now))];
        }
      }
    }

    method MarkRevoked(session: nat, now: Time)
      modifies this`sessions
      ensures sessions == if session < |old(sessions)|
                          then old(sessions)[session := old(sessions)[session].(revokedAt := Some(now))]
                          else old(sessions)
    {
      if session < |sessions| {
        sessions := sessions[session := sessions[session].(revokedAt := Some(now))];
      }
    }
  }

  class AuthService {
    const repo: AuthRepository

    constructor (repo: AuthRepository)
      ensures this.repo == repo
    {
      this.repo := repo;
    }

    /** After the credentials were accepted: a new session with its first token. */
    method IssueSession(user: nat, now: Time, ttl: Time) returns (token: nat)
      requires AuthOk(repo.View())
      modifies repo
      ensures AuthOk(repo.View())
      ensures repo.View() == Apply(old(repo.View()), Login(user, now, ttl))
      ensures token == |old(repo.tokens)|
      ensures Alive(repo.View(), token, now + ttl)
      ensures var t := repo.tokens[token];
              t.user == user && t.session == |old(repo.sessions)|
              && repo.sessions == old(repo.sessions) + [Session(user, None, now)]
    {
      IssuedIsAlive(repo.View(), Login(user, now, ttl));
      hide Alive;
      LoginKeeps(repo.View(), user, now, ttl);
      var session := repo.CreateSession(Session(user, None, now));
      token := repo.AddRefreshToken(Minted(session, user, now, ttl));
    }

    /** Rotate a token. A spent token ends its session, and that outcome is
        committed although the call fails; every other failure changes nothing. */
    method Refresh(token: nat, now: Time, ttl: Time, userIsActive: bool) returns (r: Result<nat, AuthError>)
      requires AuthOk(repo.View())
      modifies repo
      ensures AuthOk(repo.View())
      ensures repo.View() == Apply(old(repo.View()), AuthRules.Refresh(token, now, ttl, userIsActive))
      ensures r.Ok? <==> Rotates(old(repo.View()), token, now, userIsActive)
      ensures r == Err(TokenReuse) <==> IsReuse(old(repo.View()), token)
      ensures r.Ok? ==> r.value == |old(repo.tokens)| && repo.tokens[token].replacedBy == Some(r.value)
      ensures r.Ok? ==> repo.tokens[token].usedAt == Some(now)
      ensures r.Ok? ==>
                var id := repo.tokens[token].session; id < |repo.sessions| && repo.sessions[id].lastSeenAt == now
      ensures r == Err(TokenReuse) ==>
                var id := repo.tokens[token].session;
                && (id < |repo.sessions| ==> repo.sessions[id].revokedAt == Some(now))
                && forall t :: t in repo.tokens && t.session == id ==> t.revokedAt.Some?
      ensures r.Ok? ==> && Alive(repo.View(), r.value, now + ttl)
                        && repo.tokens[r.value].session == old(repo.tokens)[token].session
                        && repo.tokens[r.value].user == old(repo.tokens)[token].user
      ensures r.Err? && r.error != TokenReuse ==> repo.View() == old(repo.View())
    {
      CallKeeps(repo.View(), AuthRules.Refresh(token, now, ttl, userIsActive));
      if Rotates(repo.View(), token, now, userIsActive) {
        IssuedIsAlive(repo.View(), AuthRules.Refresh(token, now, ttl, userIsActive));
      }
      hide Alive;
      var found := repo.GetRefreshByHash(token);
      if found.None? {
        return Err(InvalidToken);
      }
      var stored := found.value;
      if stored.usedAt.Some? || stored.revokedAt.Some? {
        repo.RevokeSessionTokens(stored.session, now);
        repo.MarkRevoked(stored.session, now);
        return Err(TokenReuse);
      }
      if stored.expiresAt <= now {
        return Err(TokenExpired);
      }
      if |repo.sessions| <= stored.session || repo.sessions[stored.session].revokedAt.Some? {
        return Err(SessionInvalid);
      }
      if !userIsActive {
        return Err(UserInactive);
      }
      repo.tokens := repo.tokens[token := stored.(usedAt := Some(now))];
      var minted := repo.AddRefreshToken(Minted(stored.session, stored.user, now, ttl));
      repo.tokens := repo.tokens[token := repo.tokens[token].(replacedBy := Some(minted))];
      repo.sessions := repo.sessions[stored.session := repo.sessions[stored.session].(lastSeenAt := now)];
      assert repo.View() == Rotated(old(repo.View()), token, now, ttl);
      r := Ok(minted);
    }

    method Logout(presented: Option<nat>, now: Time)
      requires AuthOk(repo.View())
      modifies repo
      ensures AuthOk(repo.View())
      ensures repo.View() == Apply(old(repo.View()), AuthRules.Logout(presented, now))
      ensures presented.Some? && presented.value < |old(repo.tokens)| ==>
                var id := old(repo.tokens)[presented.value].session;
                && (id < |repo.sessions| ==> repo.sessions[id].revokedAt == Some(now))
                && forall t :: t in repo.tokens && t.session == id ==> t.revokedAt.Some?
    {
      CallKeeps(repo.View(), AuthRules.Logout(presented, now));
      if presented.None? {
        return;
      }
      var stored := repo.GetRefreshByHash(presented.value);
      if stored.None? {
        return;
      }
      repo.RevokeSessionTokens(stored.value.session, now);
      repo.MarkRevoked(stored.value.session, now);
    }
  }
}
