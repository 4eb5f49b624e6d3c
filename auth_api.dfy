/**
 * The session table of backend/app/api/auth.py: a map from session token to the user id
 * and creation time of the session, with a 24-hour lifetime. The generated token, the
 * generated user id and the current time (`time.time()`, in seconds) are parameters.
 */
module AuthApi {
  import opened Wrappers
  import opened Models

  /** `SESSION_DURATION`: 24 hours in seconds. */
  const SessionDuration: real := (24 * 60 * 60) as real

  datatype Session = Session(userId: string, createdAt: real)

  /** A session is dropped once strictly more than the lifetime has passed since its creation. */
  predicate Expired(s: Session, now: real) {
    now - s.createdAt > SessionDuration
  }

  /** What `_cleanup_expired_sessions` leaves of a table at time `now`. */
  function Live(sessions: map<string, Session>, now: real): (m: map<string, Session>)
    ensures forall t :: t in m <==> t in sessions && !Expired(sessions[t], now)
    ensures forall t :: t in m ==> m[t] == sessions[t]
  {
    map t | t in sessions && !Expired(sessions[t], now) :: sessions[t]
  }

  /** The boundary: a session exactly one lifetime old is still live. */
  lemma ExactLifetimeIsKept(sessions: map<string, Session>, token: string, now: real)
    requires token in sessions && now - sessions[token].createdAt == SessionDuration
    ensures token in Live(sessions, now)
  {
  }

  /** Cleaning up twice at the same time removes nothing more. */
  lemma LiveIdempotent(sessions: map<string, Session>, now: real)
    ensures Live(Live(sessions, now), now) == Live(sessions, now)
  {
  }

  /** Time only removes sessions: what is live later was live earlier, with the same record. */
  lemma LiveShrinksOverTime(sessions: map<string, Session>, earlier: real, later: real)
    requires earlier <= later
    ensures Live(Live(sessions, earlier), later) == Live(sessions, later)
    ensures Live(sessions, later).Keys <= Live(sessions, earlier).Keys
  {
  }

  /**
   * A session created at `now` resolves to its user for one full lifetime, whatever the
   * table held before and whichever cleanups happen in between.
   */
  lemma NewSessionLasts(sessions: map<string, Session>, token: string, userId: string, now: real, later: real)
    requires now <= later <= now + SessionDuration
    ensures var table := Live(sessions[token := Session(userId, now)], now);
      token in Live(table, later) && Live(table, later)[token].userId == userId
  {
  }

  datatype LoginResponse = LoginResponse(success: bool, token: Option<string>, userId: Option<string>, message: string)

  datatype LogoutResponse = LogoutResponse(success: bool, message: string)

  const MissingTokenMessage := "Missing user token. Include X-User-Token header."
  const InvalidTokenMessage := "Invalid or expired user token. Please login again."

  /** The module-level `_sessions` table. */
  class SessionTable {
    var sessions: map<string, Session>

    constructor()
      ensures sessions == map[]
    {
      sessions := map[];
    }

    /** `_cleanup_expired_sessions`: collects the expired tokens, then deletes them one by one. */
    method CleanupExpiredSessions(now: real)
      modifies this
      ensures sessions == Live(old(sessions), now)
    {
      var expired := set t | t in sessions && Expired(sessions[t], now);
      while expired != {}
        invariant expired <= sessions.Keys
        invariant forall t :: t in expired ==> t in old(sessions) && Expired(old(sessions)[t], now)
        invariant forall t :: t in sessions <==> t in old(sessions) && (t in expired || !Expired(old(sessions)[t], now))
        invariant forall t :: t in sessions ==> sessions[t] == old(sessions)[t]
        decreases |expired|
      {
        var token :| token in expired;
        sessions := sessions - {token};
        expired := expired - {token};
      }
      assert sessions.Keys == Live(old(sessions), now).Keys;
    }

    /**
     * `login`: the right password creates the session `token ↦ (userId, now)` and then cleans
     * up; a wrong one is refused with 401 and the table is left alone.
     */
    method Login(password: string, settings: Settings, token: string, userId: string, now: real)
      returns (r: Result<LoginResponse, HttpError>)
      modifies this
      ensures password == settings.appPassword ==>
        && r == Success(LoginResponse(true, Some(token), Some(userId), "Login successful"))
        && sessions == Live(old(sessions)[token := Session(userId, now)], now)
        && token in sessions && sessions[token] == Session(userId, now)
      ensures password != settings.appPassword ==>
        r == Failure(HttpError(401, "Invalid password")) && sessions == old(sessions)
    {
      if password == settings.appPassword {
        sessions := sessions[token := Session(userId, now)];
        CleanupExpiredSessions(now);
        return Success(LoginResponse(true, Some(token), Some(userId), "Login successful"));
      }
      return Failure(HttpError(401, "Invalid password"));
    }

    /** `validate_token`: after cleanup, the token is valid exactly when it is still in the table. */
    method ValidateToken(token: string, now: real) returns (valid: bool)
      modifies this
      ensures sessions == Live(old(sessions), now)
      ensures valid <==> token in old(sessions) && !Expired(old(sessions)[token], now)
    {
      CleanupExpiredSessions(now);
      valid := token in sessions;
    }

    /** `logout`: forgets this one token, present or not, and always reports success. */
    method Logout(token: string) returns (r: LogoutResponse)
      modifies this
      ensures sessions == old(sessions) - {token}
      ensures r == LogoutResponse(true, "Logged out")
    {
      if token in sessions {
        sessions := sessions - {token};
      }
      r := LogoutResponse(true, "Logged out");
    }

    /**
     * `get_user_id_from_token`: cleans up first, then refuses a missing header and an unknown
     * or expired token with 401, and otherwise yields the session's user id.
     */
    method GetUserIdFromToken(userToken: Option<string>, now: real) returns (r: Result<string, HttpError>)
      modifies this
      ensures sessions == Live(old(sessions), now)
      ensures userToken.None? ==> r == Failure(HttpError(401, MissingTokenMessage))
      ensures userToken.Some? && userToken.value !in sessions ==> r == Failure(HttpError(401, InvalidTokenMessage))
      ensures userToken.Some? && userToken.value in sessions ==> r == Success(sessions[userToken.value].userId)
      ensures r.Success? ==>
        && userToken.Some? && userToken.value in old(sessions)
        && !Expired(old(sessions)[userToken.value], now) && r.value == old(sessions)[userToken.value].userId
    {
      CleanupExpiredSessions(now);
      if userToken.None? {
        return Failure(HttpError(401, MissingTokenMessage));
      }
      if userToken.value !in sessions {
        return Failure(HttpError(401, InvalidTokenMessage));
      }
      r := Success(sessions[userToken.value].userId);
    }
  }

  /** Logging out twice is the same as logging out once. */
  lemma LogoutIdempotent(sessions: map<string, Session>, token: string)
    ensures (sessions - {token}) - {token} == sessions - {token}
  {
  }
}
