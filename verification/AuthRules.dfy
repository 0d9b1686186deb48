/** Sessions and rotating refresh tokens, on values (auth/service.py:133-263). A
    token's id stands for the raw token and its hash: tokens are fresh and hashes
    do not collide. */
module AuthRules {
  import opened Prelude

  type Time = int

  datatype Session = Session(user: nat, revokedAt: Option<Time>, lastSeenAt: Time)

  datatype RefreshToken = RefreshToken(
    session: nat,
    user: nat,
    expiresAt: Time,
    usedAt: Option<Time>,
    revokedAt: Option<Time>,
    replacedBy: Option<nat>)

  datatype AuthState = AuthState(sessions: seq<Session>, tokens: seq<RefreshToken>)

  const NO_SESSIONS := AuthState([], [])

  /** A call, at the time and under the conditions it ran: `active` is whether the
      token's user is active then. */
  datatype Call =
    | Login(user: nat, now: Time, ttl: Time)
    | Refresh(token: nat, now: Time, ttl: Time, active: bool)
    | Logout(presented: Option<nat>, now: Time)

  function Revoked(tokens: seq<RefreshToken>, session: nat, now: Time): (r: seq<RefreshToken>)
    ensures |r| == |tokens|
    ensures forall i :: 0 <= i < |tokens| ==>
              r[i] == if tokens[i].session == session && tokens[i].revokedAt.None?
                      then tokens[i].(revokedAt := Some(now)) else tokens[i]
  {
    seq(|tokens|, i requires 0 <= i < |tokens| =>
      if tokens[i].session == session && tokens[i].revokedAt.None?
      then tokens[i].(revokedAt := Some(now)) else tokens[i])
  }

  function RevokeSession(s: AuthState, session: nat, now: Time): AuthState {
    AuthState(if session < |s.sessions| then s.sessions[session := s.sessions[session].(revokedAt := Some(now))]
              else s.sessions,
              Revoked(s.tokens, session, now))
  }

  function Minted(session: nat, user: nat, now: Time, ttl: Time): RefreshToken {
    RefreshToken(session, user, now + ttl, None, None, None)
  }

  /** A used or revoked token presented again. */
  predicate IsReuse(s: AuthState, token: nat) {
    token < |s.tokens| && (s.tokens[token].usedAt.Some? || s.tokens[token].revokedAt.Some?)
  }

  /** The conditions under which a refresh rotates. */
  predicate Rotates(s: AuthState, token: nat, now: Time, active: bool) {
    && token < |s.tokens| && !IsReuse(s, token)
    && now < s.tokens[token].expiresAt
    && s.tokens[token].session < |s.sessions| && s.sessions[s.tokens[token].session].revokedAt.None?
    && active
  }

  function Rotated(s: AuthState, token: nat, now: Time, ttl: Time): AuthState
    requires token < |s.tokens| && s.tokens[token].session < |s.sessions|
  {
    var t := s.tokens[token];
    var session := s.sessions[t.session];
    AuthState(s.sessions[t.session := session.(lastSeenAt := now)],
              s.tokens[token := t.(usedAt := Some(now), replacedBy := Some(|s.tokens|))]
              + [Minted(t.session, t.user, now, ttl)])
  }

  function Apply(s: AuthState, call: Call): AuthState {
    match call
    case Login(user, now, ttl) =>
      AuthState(s.sessions + [Session(user, None, now)], s.tokens + [Minted(|s.sessions|, user, now, ttl)])
    case Refresh(token, now, ttl, active) =>
      if IsReuse(s, token) then RevokeSession(s, s.tokens[token].session, now)
      else if Rotates(s, token, now, active) then Rotated(s, token, now, ttl)
      else s
    case Logout(presented, now) =>
      if presented.Some? && presented.value < |s.tokens| then RevokeSession(s, s.tokens[presented.value].session, now)
      else s
  }

  function After(s: AuthState, calls: seq<Call>): AuthState
    decreases |calls|
  {
    if calls == [] then s else After(Apply(s, calls[0]), calls[1..])
  }

  // --- The chain of a session -------------------------------------------------------------

  /** A session's tokens, oldest first. */
  function TokensOf(tokens: seq<RefreshToken>, session: nat): (ids: seq<nat>)
    ensures forall i :: i in ids <==> 0 <= i < |tokens| && tokens[i].session == session
  {
    if tokens == [] then []
    else
      var n := |tokens| - 1;
      TokensOf(tokens[..n], session) + if tokens[n].session == session then [n] else []
  }

  /** Each token was used and names its successor, but the last, which is neither
      used nor replaced. */
  ghost predicate IsChain(tokens: seq<RefreshToken>, ids: seq<nat>) {
    && ids != [] && (forall k :: 0 <= k < |ids| ==> ids[k] < |tokens|)
    && (forall k :: 0 <= k < |ids| - 1 ==>
          tokens[ids[k]].usedAt.Some? && tokens[ids[k]].replacedBy == Some(ids[k + 1]))
    && tokens[ids[|ids| - 1]].usedAt.None? && tokens[ids[|ids| - 1]].replacedBy.None?
  }

  /** Revocation is all or nothing. */
  ghost predicate RevokedTogether(s: AuthState, session: nat)
    requires session < |s.sessions|
  {
    forall i :: 0 <= i < |s.tokens| && s.tokens[i].session == session ==>
      (s.tokens[i].revokedAt.Some? <==> s.sessions[session].revokedAt.Some?)
  }

  ghost predicate SessionOk(s: AuthState, session: nat)
    requires session < |s.sessions|
  {
    IsChain(s.tokens, TokensOf(s.tokens, session)) && RevokedTogether(s, session)
  }

  ghost predicate Owned(s: AuthState) {
    forall i :: 0 <= i < |s.tokens| ==> s.tokens[i].session < |s.sessions|
  }

  ghost predicate AuthOk(s: AuthState) {
    Owned(s) && forall session :: 0 <= session < |s.sessions| ==> SessionOk(s, session)
  }

  /** Only the session links decide which tokens a session has. */
  lemma {:induction false} SameTokens(a: seq<RefreshToken>, b: seq<RefreshToken>, session: nat)
    requires |a| == |b| && forall i :: 0 <= i < |a| ==> a[i].session == b[i].session
    ensures TokensOf(a, session) == TokensOf(b, session)
  {
    if a != [] {
      SameTokens(a[..|a| - 1], b[..|b| - 1], session);
    }
  }

  lemma {:induction false} TokensSnoc(tokens: seq<RefreshToken>, t: RefreshToken, session: nat)
    ensures TokensOf(tokens + [t], session)
         == TokensOf(tokens, session) + if t.session == session then [|tokens|] else []
  {
    assert (tokens + [t])[..|tokens|] == tokens;
  }

  lemma {:induction false} LoginKeeps(s: AuthState, user: nat, now: Time, ttl: Time)
    requires AuthOk(s)
    ensures AuthOk(Apply(s, Login(user, now, ttl)))
  {
    var after := Apply(s, Login(user, now, ttl));
    var t := Minted(|s.sessions|, user, now, ttl);
    forall session | 0 <= session < |after.sessions| ensures SessionOk(after, session) {
      TokensSnoc(s.tokens, t, session);
      if session < |s.sessions| {
        assert SessionOk(s, session);
        ChainGrows(s.tokens, t, TokensOf(s.tokens, session));
        assert TokensOf(s.tokens, session) + [] == TokensOf(s.tokens, session);
      } else {
        NoTokensYet(s.tokens, session);
      }
    }
  }

  lemma {:induction false} NoTokensYet(tokens: seq<RefreshToken>, session: nat)
    requires forall i :: 0 <= i < |tokens| ==> tokens[i].session != session
    ensures TokensOf(tokens, session) == []
  {
    if tokens != [] {
      NoTokensYet(tokens[..|tokens| - 1], session);
    }
  }

  lemma {:induction false} ChainGrows(tokens: seq<RefreshToken>, t: RefreshToken, ids: seq<nat>)
    requires IsChain(tokens, ids)
    ensures IsChain(tokens + [t], ids)
  {
  }

  lemma {:induction false} RevokeKeeps(s: AuthState, revoked: nat, now: Time)
    requires AuthOk(s) && revoked < |s.sessions|
    ensures AuthOk(RevokeSession(s, revoked, now))
  {
    var after := RevokeSession(s, revoked, now);
    forall session | 0 <= session < |after.sessions| ensures SessionOk(after, session) {
      assert SessionOk(s, session);
      SameTokens(s.tokens, after.tokens, session);
      assert RevokedTogether(s, session);
    }
  }

  /** An unused token is the tail of its session's chain. */
  lemma {:induction false} UnusedIsTail(s: AuthState, token: nat)
    requires AuthOk(s) && token < |s.tokens| && s.tokens[token].usedAt.None?
    ensures var ids := TokensOf(s.tokens, s.tokens[token].session);
            ids != [] && ids[|ids| - 1] == token
  {
    var session := s.tokens[token].session;
    assert SessionOk(s, session);
    var ids := TokensOf(s.tokens, session);
    assert token in ids;
  }

  lemma {:induction false} RotateKeeps(s: AuthState, token: nat, now: Time, ttl: Time)
    requires AuthOk(s) && Rotates(s, token, now, true)
    ensures AuthOk(Rotated(s, token, now, ttl))
  {
    var after := Rotated(s, token, now, ttl);
    UnusedIsTail(s, token);
    RotatedOwned(s, token, now, ttl);
    hide IsChain, RevokedTogether, TokensOf, Owned;
    forall session | 0 <= session < |after.sessions| ensures SessionOk(after, session) {
      assert SessionOk(s, session);
      RotatedTokens(s, token, now, ttl, session);
      RotatedChain(s, token, now, ttl, session);
      RotatedTogether(s, token, now, ttl, session);
    }
  }

  lemma {:induction false} RotatedOwned(s: AuthState, token: nat, now: Time, ttl: Time)
    requires Owned(s) && Rotates(s, token, now, true)
    ensures Owned(Rotated(s, token, now, ttl))
  {
  }

  lemma {:induction false} RotatedTogether(s: AuthState, token: nat, now: Time, ttl: Time, session: nat)
    requires Rotates(s, token, now, true) && session < |s.sessions| && RevokedTogether(s, session)
    ensures RevokedTogether(Rotated(s, token, now, ttl), session)
  {
  }

  lemma {:induction false} RotatedTokens(s: AuthState, token: nat, now: Time, ttl: Time, session: nat)
    requires Rotates(s, token, now, true)
    ensures TokensOf(Rotated(s, token, now, ttl).tokens, session)
         == if s.tokens[token].session == session then TokensOf(s.tokens, session) + [|s.tokens|]
            else TokensOf(s.tokens, session)
  {
    var t := s.tokens[token];
    var used := s.tokens[token := t.(usedAt := Some(now), replacedBy := Some(|s.tokens|))];
    SameTokens(s.tokens, used, session);
    TokensSnoc(used, Minted(t.session, t.user, now, ttl), session);
    assert TokensOf(s.tokens, session) + [] == TokensOf(s.tokens, session);
  }

  lemma {:induction false} RotatedChain(s: AuthState, token: nat, now: Time, ttl: Time, session: nat)
    requires session < |s.sessions| && token < |s.tokens| && s.tokens[token].session < |s.sessions|
    requires IsChain(s.tokens, TokensOf(s.tokens, session))
    requires var ids := TokensOf(s.tokens, s.tokens[token].session); ids != [] && ids[|ids| - 1] == token
    ensures var ids := TokensOf(s.tokens, session);
            IsChain(Rotated(s, token, now, ttl).tokens,
                    if s.tokens[token].session == session then ids + [|s.tokens|] else ids)
  {
    var ids := TokensOf(s.tokens, session);
    var tokens := Rotated(s, token, now, ttl).tokens;
    if s.tokens[token].session == session {
      EarlierDiffer(s.tokens, ids);
      ChainExtends(s.tokens, tokens, ids);
    } else {
      forall k | 0 <= k < |ids| ensures ids[k] != token {
        assert ids[k] in ids;
      }
      ChainSame(s.tokens, tokens, ids);
    }
  }

  lemma {:induction false} EarlierDiffer(tokens: seq<RefreshToken>, ids: seq<nat>)
    requires IsChain(tokens, ids)
    ensures forall k :: 0 <= k < |ids| - 1 ==> ids[k] != ids[|ids| - 1]
  {
  }

  lemma {:induction false} ChainSame(tokens: seq<RefreshToken>, after: seq<RefreshToken>, ids: seq<nat>)
    requires IsChain(tokens, ids) && |tokens| <= |after|
    requires forall k :: 0 <= k < |ids| ==> after[ids[k]] == tokens[ids[k]]
    ensures IsChain(after, ids)
  {
  }

  lemma {:induction false} ChainExtends(tokens: seq<RefreshToken>, after: seq<RefreshToken>, ids: seq<nat>)
    requires IsChain(tokens, ids) && |after| == |tokens| + 1
    requires forall k :: 0 <= k < |ids| - 1 ==> after[ids[k]] == tokens[ids[k]]
    requires var tail := after[ids[|ids| - 1]]; tail.usedAt.Some? && tail.replacedBy == Some(|tokens|)
    requires after[|tokens|].usedAt.None? && after[|tokens|].replacedBy.None?
    ensures IsChain(after, ids + [|tokens|])
  {
    var longer := ids + [|tokens|];
    assert forall k :: 0 <= k < |ids| ==> longer[k] == ids[k];
  }

  lemma {:induction false} CallKeeps(s: AuthState, call: Call)
    requires AuthOk(s)
    ensures AuthOk(Apply(s, call))
  {
    match call
    case Login(user, now, ttl) => LoginKeeps(s, user, now, ttl);
    case Refresh(token, now, ttl, active) =>
      if IsReuse(s, token) {
        RevokeKeeps(s, s.tokens[token].session, now);
      } else if Rotates(s, token, now, active) {
        RotateKeeps(s, token, now, ttl);
      }
    case Logout(presented, now) =>
      if presented.Some? && presented.value < |s.tokens| {
        RevokeKeeps(s, s.tokens[presented.value].session, now);
      }
  }

  /** In every state any run of calls reaches, each session's tokens form one chain
      with exactly one unused tail, and a session is revoked exactly when all its
      tokens are. */
  lemma {:induction false} RunKeeps(s: AuthState, calls: seq<Call>)
    requires AuthOk(s)
    ensures AuthOk(After(s, calls))
    decreases |calls|
  {
    if calls != [] {
      hide AuthOk, Apply;
      CallKeeps(s, calls[0]);
      RunKeeps(Apply(s, calls[0]), calls[1..]);
    }
  }

  /** The wording of the invariant: one unused token, and revocation of a session
      and of all its tokens are the same thing. */
  lemma {:induction false} ReachableSessions(calls: seq<Call>, session: nat)
    requires session < |After(NO_SESSIONS, calls).sessions|
    ensures var s := After(NO_SESSIONS, calls);
            var ids := TokensOf(s.tokens, session);
            && IsChain(s.tokens, ids)
            && (forall i :: 0 <= i < |s.tokens| && s.tokens[i].session == session ==>
                  (s.tokens[i].usedAt.None? <==> i == ids[|ids| - 1]))
            && (s.sessions[session].revokedAt.Some? <==>
                forall i :: 0 <= i < |s.tokens| && s.tokens[i].session == session ==> s.tokens[i].revokedAt.Some?)
  {
    RunKeeps(NO_SESSIONS, calls);
    var s := After(NO_SESSIONS, calls);
    var ids := TokensOf(s.tokens, session);
    assert SessionOk(s, session);
    assert RevokedTogether(s, session);
    forall i | 0 <= i < |s.tokens| && s.tokens[i].session == session
      ensures s.tokens[i].usedAt.None? <==> i == ids[|ids| - 1]
    {
      assert i in ids;
    }
    assert ids[0] in ids;
  }

  // --- Revocation is for good ---------------------------------------------------------------

  predicate IsRevoked(s: AuthState, session: nat) {
    session < |s.sessions| && s.sessions[session].revokedAt.Some?
  }

  lemma {:induction false} RevokedStays(s: AuthState, session: nat, calls: seq<Call>)
    requires IsRevoked(s, session)
    ensures IsRevoked(After(s, calls), session)
    decreases |calls|
  {
    if calls != [] {
      RevokedStays(Apply(s, calls[0]), session, calls[1..]);
    }
  }

  lemma {:induction false} TokenStays(s: AuthState, token: nat, calls: seq<Call>)
    requires token < |s.tokens|
    ensures var after := After(s, calls);
            && token < |after.tokens| && after.tokens[token].session == s.tokens[token].session
            && (IsReuse(s, token) ==> IsReuse(after, token))
    decreases |calls|
  {
    if calls != [] {
      TokenStays(Apply(s, calls[0]), token, calls[1..]);
    }
  }

  /** Whether a call replays a spent token of the session, or logs it out. */
  predicate EndsSession(s: AuthState, call: Call, session: nat) {
    match call
    case Login(_, _, _) => false
    case Refresh(token, _, _, _) => IsReuse(s, token) && s.tokens[token].session == session
    case Logout(presented, _) =>
      presented.Some? && presented.value < |s.tokens| && s.tokens[presented.value].session == session
  }

  /** After a replay or a logout, whatever happens next, no refresh with any token
      of that session ever rotates again, whether the token existed then or not. */
  lemma {:induction false} EndedForGood(s: AuthState, call: Call, session: nat, later: seq<Call>, token: nat,
                                        now: Time, active: bool)
    requires AuthOk(s) && EndsSession(s, call, session)
    ensures var after := After(Apply(s, call), later);
            token < |after.tokens| && after.tokens[token].session == session ==> !Rotates(after, token, now, active)
  {
    assert IsRevoked(Apply(s, call), session);
    RevokedStays(Apply(s, call), session, later);
  }

  /** A token rotates at most once: presenting it again, at any later time, is a
      replay that ends the session. */
  lemma {:induction false} RotatesOnce(s: AuthState, token: nat, now: Time, ttl: Time, active: bool, later: seq<Call>)
    requires AuthOk(s) && Rotates(s, token, now, active)
    ensures var after := After(Apply(s, Refresh(token, now, ttl, active)), later);
            IsReuse(after, token)
  {
    TokenStays(Apply(s, Refresh(token, now, ttl, active)), token, later);
  }

  /** Calls about other sessions never end this one: a live session's tail still
      rotates after them. */
  lemma {:induction false} OthersDoNotInterfere(s: AuthState, call: Call, session: nat, token: nat, now: Time)
    requires AuthOk(s) && token < |s.tokens| && s.tokens[token].session == session && Rotates(s, token, now, true)
    requires !EndsSession(s, call, session) && !(call.Refresh? && call.token == token)
    ensures Rotates(Apply(s, call), token, now, true)
  {
  }

  // --- A fresh token works ------------------------------------------------------------------

  /** None of the calls ends the token's session or presents the token. */
  predicate Undisturbed(s: AuthState, calls: seq<Call>, token: nat)
    decreases |calls|
  {
    calls == []
    || (token < |s.tokens| && !EndsSession(s, calls[0], s.tokens[token].session)
        && !(calls[0].Refresh? && calls[0].token == token)
        && Undisturbed(Apply(s, calls[0]), calls[1..], token))
  }

  /** The token is unspent, its session lives, and it can be used until `end`. */
  ghost predicate Alive(s: AuthState, token: nat, end: Time) {
    forall t, active :: Rotates(s, token, t, active) <==> t < end && active
  }

  lemma {:induction false} AliveAfter(s: AuthState, call: Call, token: nat, end: Time)
    requires Alive(s, token, end) && token < |s.tokens| && !EndsSession(s, call, s.tokens[token].session)
    requires !(call.Refresh? && call.token == token)
    ensures Alive(Apply(s, call), token, end)
  {
    assert Rotates(s, token, end - 1, true);
    forall t, active ensures Rotates(Apply(s, call), token, t, active) <==> Rotates(s, token, t, active) {
    }
  }

  lemma {:induction false} AliveThrough(s: AuthState, calls: seq<Call>, token: nat, end: Time)
    requires Alive(s, token, end) && Undisturbed(s, calls, token)
    ensures Alive(After(s, calls), token, end)
    decreases |calls|
  {
    if calls != [] {
      AliveAfter(s, calls[0], token, end);
      hide Alive, Apply, EndsSession;
      AliveThrough(Apply(s, calls[0]), calls[1..], token, end);
    }
  }

  /** The token a login or a rotation issues can be used at once, until its lifetime is
      over. */
  lemma {:induction false} IssuedIsAlive(s: AuthState, issue: Call)
    requires issue.Login? || (issue.Refresh? && Rotates(s, issue.token, issue.now, issue.active))
    ensures Alive(Apply(s, issue), |s.tokens|, issue.now + issue.ttl)
  {
  }

  /** A token issued by a login or a rotation, after any calls that neither end its
      session nor present it, rotates if and only if its lifetime is not over and its
      user is active. */
  lemma {:induction false} FreshTokenRotates(s: AuthState, issue: Call, later: seq<Call>, t: Time, active: bool)
    requires issue.Login? || (issue.Refresh? && Rotates(s, issue.token, issue.now, issue.active))
    requires Undisturbed(Apply(s, issue), later, |s.tokens|)
    ensures Rotates(After(Apply(s, issue), later), |s.tokens|, t, active) <==> t < issue.now + issue.ttl && active
  {
    IssuedIsAlive(s, issue);
    hide Apply, Rotates;
    AliveThrough(Apply(s, issue), later, |s.tokens|, issue.now + issue.ttl);
  }
}
