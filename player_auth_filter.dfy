/**
 * PlayerAuthFilter.java: the in-memory session table and the request gate
 * built on it. A request is admitted by a live session named in the
 * `X-Session-Token` header, else by the legacy token rules of AuthFilter,
 * else refused with 401. Clock readings and freshly generated tokens are
 * parameters.
 */
module SessionAuth {
  import opened Base
  import opened UserStore
  import LegacyAuth

  /** 24 hours in milliseconds. */
  const SessionTimeoutMs: int := 24 * 60 * 60 * 1000

  /** `SessionInfo`: `isOp` is a copy of the admin flag taken when the session was made. */
  datatype SessionInfo = SessionInfo(username: string, displayName: string, isOp: bool, lastAccess: int)

  /** A session is live while less than the timeout has passed since its last use. */
  predicate Live(s: SessionInfo, now: int)
  {
    now - s.lastAccess < SessionTimeoutMs
  }

  /** The outcome of `handle`: a refreshed session, or whatever the token rules decided. */
  datatype Decision = BySession(session: SessionInfo) | ByFallback(verdict: LegacyAuth.Verdict)

  predicate Admitted(d: Decision)
  {
    d.BySession? || LegacyAuth.Authorized(d.verdict)
  }

  class PlayerAuthFilter {
    /** The configured fallback token; None when it is null. */
    const fallbackToken: Option<string>
    const userDatabase: UserDatabase
    var activeSessions: map<string, SessionInfo>

    constructor (fallbackToken: Option<string>, userDatabase: UserDatabase)
      ensures this.fallbackToken == fallbackToken && this.userDatabase == userDatabase
      ensures activeSessions == map[]
    {
      this.fallbackToken := fallbackToken;
      this.userDatabase := userDatabase;
      activeSessions := map[];
    }

    /**
     * `handle`: `sessionToken`, `authorization` and `queryToken` are the
     * request's header values and query parameter; `now` is the clock.
     */
    method Handle(sessionToken: Option<string>, authorization: Option<string>, queryToken: Option<string>, now: int)
      returns (d: Decision)
      modifies this
      ensures var present := sessionToken.Some? && sessionToken.value in old(activeSessions);
              var fallback := ByFallback(LegacyAuth.Handle(fallbackToken, authorization, queryToken));
              && (present && Live(old(activeSessions)[sessionToken.value], now) ==>
                    var refreshed := old(activeSessions)[sessionToken.value].(lastAccess := now);
                    d == BySession(refreshed) && activeSessions == old(activeSessions)[sessionToken.value := refreshed])
              && (present && !Live(old(activeSessions)[sessionToken.value], now) ==>
                    d == fallback && activeSessions == old(activeSessions) - {sessionToken.value})
              && (!present ==> d == fallback && activeSessions == old(activeSessions))
      ensures Admitted(d) <==>
                (sessionToken.Some? && sessionToken.value in old(activeSessions) && Live(old(activeSessions)[sessionToken.value], now))
                || authorization == Some(LegacyAuth.ExpectedHeader(fallbackToken))
                || (fallbackToken.Some? && queryToken == fallbackToken)
    {
      if sessionToken.Some? && sessionToken.value in activeSessions {
        var session := activeSessions[sessionToken.value];
        if now - session.lastAccess < SessionTimeoutMs {
          session := session.(lastAccess := now);
          activeSessions := activeSessions[sessionToken.value := session];
          return BySession(session);
        } else {
          activeSessions := activeSessions - {sessionToken.value};
        }
      }
      d := ByFallback(LegacyAuth.Handle(fallbackToken, authorization, queryToken));
    }

    /** `createSession`: `freshToken` stands for the generated UUID, `now` for the clock. */
    method CreateSession(username: Option<string>, password: Option<string>, freshToken: string, now: int)
      returns (token: Option<string>)
      modifies this
      ensures token.Some? <==> userDatabase.Authenticate(username, password)
      ensures token.None? ==> activeSessions == old(activeSessions)
      ensures token.Some? ==>
                token.value == freshToken
                && activeSessions == old(activeSessions)[freshToken :=
                     SessionInfo(username.value, username.value, userDatabase.IsAdmin(username), now)]
    {
      if !userDatabase.Authenticate(username, password) {
        return None;
      }
      var user := userDatabase.GetUser(username).value;
      activeSessions := activeSessions[freshToken := SessionInfo(username.value, username.value, user.isAdmin, now)];
      token := Some(freshToken);
    }

    /** `invalidateSession`: removes the token if present; idempotent. */
    method InvalidateSession(sessionToken: string)
      modifies this
      ensures activeSessions == old(activeSessions) - {sessionToken}
      ensures sessionToken !in old(activeSessions) ==> activeSessions == old(activeSessions)
    {
      activeSessions := activeSessions - {sessionToken};
    }

    /** `isOp`: the snapshotted flag of a stored session; no expiry check is made. */
    function IsOp(sessionToken: string): (r: bool)
      reads this
      ensures r ==> sessionToken in activeSessions
    {
      sessionToken in activeSessions && activeSessions[sessionToken].isOp
    }

    /** `getSession`: the stored session, expired or not. */
    function GetSession(sessionToken: string): (r: Option<SessionInfo>)
      reads this
      ensures r.Some? <==> sessionToken in activeSessions
      ensures r.Some? ==> r.value == activeSessions[sessionToken]
    {
      if sessionToken in activeSessions then Some(activeSessions[sessionToken]) else None
    }
  }

  /**
   * The admin flag is a snapshot: demoting the user after login leaves an
   * existing session's `isOp` as it was.
   */
  method AdminFlagIsSnapshot(db: UserDatabase, filter: PlayerAuthFilter, name: string, password: string,
                             token: string, now: int, later: int)
    requires filter.userDatabase == db && db.Valid()
    requires db.IsAdmin(Some(name)) && db.Authenticate(Some(name), Some(password))
    modifies db, filter
    ensures !db.IsAdmin(Some(name))
    ensures token in filter.activeSessions && filter.IsOp(token)
  {
    var t := filter.CreateSession(Some(name), Some(password), token, now);
    assert t == Some(token) && filter.IsOp(token);
    var demoted := db.SetAdminStatus(Some(name), false, later);
    assert demoted && !db.IsAdmin(Some(name));
    assert filter.IsOp(token);
  }

  /** `isOp` answers from the table alone, so an expired session still reports its flag until looked up by `handle`. */
  lemma IsOpIgnoresExpiry(filter: PlayerAuthFilter, token: string, now: int)
    requires token in filter.activeSessions && filter.activeSessions[token].isOp
    requires !Live(filter.activeSessions[token], now)
    ensures filter.IsOp(token)
  {
  }
}
