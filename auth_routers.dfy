/**
 * The auth routes (src/api/modules/auth/routers.py): register, login, refresh
 * and logout. Each handler is a chain of early exits over the database; its
 * effect is stated by a function from the old tables to an outcome and the
 * new tables, and the method that changes the database in place is proved to
 * follow it. HTTP mechanics are reduced to the status, the detail message and
 * the credential values set as cookies.
 */
module AuthRouters {
  import opened Wrappers
  import opened Tokens
  import opened Models
  import opened Schemas
  import opened AuthService

  const MSG_EMAIL_TAKEN: string := "User with this email already exists"
  const MSG_REGISTER_ERROR: string := "Internal server error during registration"
  const MSG_BAD_CREDENTIALS: string := "Invalid email or password"
  const MSG_LOGIN_ERROR: string := "Internal server error during login"
  const MSG_MISSING_COOKIES: string := "Missing authentication cookies"
  const MSG_INVALID_REFRESH: string := "Invalid or expired refresh token"
  const MSG_INVALID_PAYLOAD: string := "Invalid token payload"
  const MSG_REUSE: string := "Token reuse detected. All sessions have been revoked for security."
  const MSG_INVALID_SESSION: string := "Invalid session"
  const MSG_REFRESH_ERROR: string := "Internal server error during token refresh"
  const MSG_LOGOUT_INVALID: string := "Invalid refresh token"

  /** What a handler answers. */
  datatype Outcome =
    | Issued(status: int, access: Token, refresh: Token, deviceCookie: Option<string>, user: UserResponse)
    | LoggedOut
    | Rejected(status: int, detail: string)

  /** A handler's answer together with both tables afterwards. */
  datatype Step = Step(outcome: Outcome, users: seq<User>, sessions: seq<Session>)

  /** The session query of the refresh route: the revoked flag is deliberately not part of it. */
  predicate RefreshMatch(s: Session, userId: int, deviceId: string, tokenHash: Digest, now: int) {
    s.userId == userId && s.deviceId == deviceId && s.tokenHash == tokenHash && s.expiresAt > now
  }

  function RefreshLookup(rows: seq<Session>, userId: int, deviceId: string, tokenHash: Digest, now: int): (r: Option<nat>)
    ensures r.Some? ==> r.value < |rows| && RefreshMatch(rows[r.value], userId, deviceId, tokenHash, now)
    ensures r.None? ==> forall i :: 0 <= i < |rows| ==> !RefreshMatch(rows[i], userId, deviceId, tokenHash, now)
  {
    FirstMatch(rows, (s: Session) => RefreshMatch(s, userId, deviceId, tokenHash, now))
  }

  /**
   * The in-place rotation of the refresh route: the row gets the new digest,
   * last_used_at = now and a new expiry; nothing else about it and no other row changes.
   */
  function Rotate(rows: seq<Session>, k: nat, tokenHash: Digest, now: int): (r: seq<Session>)
    requires k < |rows|
    ensures |r| == |rows| && forall i :: 0 <= i < |rows| && i != k ==> r[i] == rows[i]
    ensures r[k].tokenHash == tokenHash && r[k].lastUsedAt == Some(now) && r[k].expiresAt == now + REFRESH_TTL
    ensures r[k].(tokenHash := rows[k].tokenHash, lastUsedAt := rows[k].lastUsedAt, expiresAt := rows[k].expiresAt) == rows[k]
  {
    rows[k := rows[k].(tokenHash := tokenHash, lastUsedAt := Some(now), expiresAt := now + REFRESH_TTL)]
  }

  /** POST /auth/register on a validated body. The user is committed before the session is attempted. */
  function RegisterSpec(
    users: seq<User>, rows: seq<Session>, digest: Token -> Digest, req: RegisterRequest,
    passwordHash: string, deviceId: string, newUserId: int, newSessionId: int, now: int): Step
  {
    if FindUserByEmail(users, req.email).Some? then Step(Rejected(400, MSG_EMAIL_TAKEN), users, rows)
    else
      var user := User(newUserId, req.name, req.email, passwordHash, now);
      var withUser := users + [user];
      var (access, refresh) := GenerateTokens(user.id, now);
      var (created, rows') := CreateAuthSessionSpec(withUser, rows, user.id, deviceId, digest(refresh), newSessionId, now);
      if created.None? then Step(Rejected(500, MSG_REGISTER_ERROR), withUser, rows)
      else Step(Issued(201, access, refresh, Some(deviceId), ToUserResponse(user)), withUser, rows')
  }

  /** POST /auth/login on a validated body. */
  function LoginSpec(
    users: seq<User>, rows: seq<Session>, digest: Token -> Digest, req: LoginRequest,
    checkPassword: (string, string) -> bool, deviceId: string, newSessionId: int, now: int): Step
  {
    match Authenticate(users, req.email, req.password, checkPassword)
    case None => Step(Rejected(401, MSG_BAD_CREDENTIALS), users, rows)
    case Some(user) =>
      var (access, refresh) := GenerateTokens(user.id, now);
      var (created, rows') := CreateAuthSessionSpec(users, rows, user.id, deviceId, digest(refresh), newSessionId, now);
      if created.None? then Step(Rejected(500, MSG_LOGIN_ERROR), users, rows)
      else Step(Issued(200, access, refresh, Some(deviceId), ToUserResponse(user)), users, rows')
  }

  /** POST /auth/refresh with the refresh_token and device_id cookies. */
  function RefreshSpec(
    users: seq<User>, rows: seq<Session>, digest: Token -> Digest,
    refreshCookie: Option<Token>, deviceCookie: Option<string>, now: int): Step
  {
    if refreshCookie.None? || !Present(deviceCookie) then Step(Rejected(401, MSG_MISSING_COOKIES), users, rows)
    else
      var token := refreshCookie.value;
      var payload := VerifyToken(token, REFRESH, now);
      if payload.None? then Step(Rejected(401, MSG_INVALID_REFRESH), users, rows)
      else if !HasSubject(payload.value) then Step(Rejected(401, MSG_INVALID_PAYLOAD), users, rows)
      else
        var userId := payload.value.userId.value;
        match RefreshLookup(rows, userId, deviceCookie.value, digest(token), now)
        case None => Step(Rejected(401, MSG_INVALID_REFRESH), users, rows)
        case Some(k) =>
          if rows[k].revoked then Step(Rejected(403, MSG_REUSE), users, RevokeAllOf(rows, userId, now))
          else match FindUserById(users, rows[k].userId)
            case None => Step(Rejected(401, MSG_INVALID_SESSION), users, rows)
            case Some(j) =>
              var (access, refresh) := GenerateTokens(users[j].id, now);
              var rotated := Rotate(rows, k, digest(refresh), now);
              if Committable(users, rotated)
              then Step(Issued(200, access, refresh, None, ToUserResponse(users[j])), users, rotated)
              else Step(Rejected(500, MSG_REFRESH_ERROR), users, rows)
  }

  /** POST /auth/logout with the refresh_token and device_id cookies. */
  function LogoutSpec(
    users: seq<User>, rows: seq<Session>, digest: Token -> Digest,
    refreshCookie: Option<Token>, deviceCookie: Option<string>, now: int): Step
  {
    if refreshCookie.None? || !Present(deviceCookie) then Step(Rejected(401, MSG_MISSING_COOKIES), users, rows)
    else match ValidateLookup(rows, digest, refreshCookie.value, now)
      case None => Step(Rejected(401, MSG_LOGOUT_INVALID), users, rows)
      case Some(k) => Step(LoggedOut, users, RevokeAt(Touch(rows, k, now), k, now))
  }

  // ---------------------------------------------------------------- handlers

  /** register; `deviceId` is the str(uuid4()) the handler generates, `passwordHash` bcrypt's output. */
  method Register(db: AuthDb, req: RegisterRequest, passwordHash: string, deviceId: string, now: int) returns (out: Outcome)
    requires db.Valid() && ValidRegister(req) && deviceId != ""
    modifies db
    ensures db.Valid() && RevokedRowsFrozen(old(db.sessions), db.sessions)
    ensures Step(out, db.users, db.sessions) ==
      RegisterSpec(old(db.users), old(db.sessions), db.H, req, passwordHash, deviceId, old(db.nextUserId), old(db.nextSessionId), now)
  {
    var user := CreateUser(db, req.name, req.email, passwordHash, now);
    if user.None? {
      return Rejected(400, MSG_EMAIL_TAKEN);
    }
    var pair := GenerateTokens(user.value.id, now);
    var session := CreateAuthSession(db, user.value.id, pair.1, Some(deviceId), deviceId, now);
    if session.None? {
      return Rejected(500, MSG_REGISTER_ERROR);
    }
    out := Issued(201, pair.0, pair.1, Some(deviceId), ToUserResponse(user.value));
  }

  /** login; `checkPassword` is bcrypt's check, `deviceId` the str(uuid4()) the handler generates. */
  method Login(db: AuthDb, req: LoginRequest, checkPassword: (string, string) -> bool, deviceId: string, now: int)
    returns (out: Outcome)
    requires db.Valid() && deviceId != ""
    modifies db
    ensures db.Valid() && RevokedRowsFrozen(old(db.sessions), db.sessions)
    ensures Step(out, db.users, db.sessions) ==
      LoginSpec(old(db.users), old(db.sessions), db.H, req, checkPassword, deviceId, old(db.nextSessionId), now)
  {
    var user := Authenticate(db.users, req.email, req.password, checkPassword);
    if user.None? {
      return Rejected(401, MSG_BAD_CREDENTIALS);
    }
    var pair := GenerateTokens(user.value.id, now);
    var session := CreateAuthSession(db, user.value.id, pair.1, Some(deviceId), deviceId, now);
    if session.None? {
      return Rejected(500, MSG_LOGIN_ERROR);
    }
    out := Issued(200, pair.0, pair.1, Some(deviceId), ToUserResponse(user.value));
  }

  /** refresh_token: verify, look the session up, detect reuse, rotate the row in place. */
  method Refresh(db: AuthDb, refreshCookie: Option<Token>, deviceCookie: Option<string>, now: int) returns (out: Outcome)
    requires db.Valid()
    modifies db
    ensures db.Valid() && RevokedRowsFrozen(old(db.sessions), db.sessions)
    ensures Step(out, db.users, db.sessions) == RefreshSpec(old(db.users), old(db.sessions), db.H, refreshCookie, deviceCookie, now)
  {
    if refreshCookie.None? || !Present(deviceCookie) {
      return Rejected(401, MSG_MISSING_COOKIES);
    }
    var token := refreshCookie.value;
    var payload := VerifyToken(token, REFRESH, now);
    if payload.None? {
      return Rejected(401, MSG_INVALID_REFRESH);
    }
    if !HasSubject(payload.value) {
      return Rejected(401, MSG_INVALID_PAYLOAD);
    }
    var userId := payload.value.userId.value;
    var found := RefreshLookup(db.sessions, userId, deviceCookie.value, db.H(token), now);
    if found.None? {
      return Rejected(401, MSG_INVALID_REFRESH);
    }
    var k := found.value;
    if db.sessions[k].revoked {
      RevokeAllUserSessions(db, userId, now);
      return Rejected(403, MSG_REUSE);
    }
    var owner := FindUserById(db.users, db.sessions[k].userId);
    if owner.None? {
      return Rejected(401, MSG_INVALID_SESSION);
    }
    var user := db.users[owner.value];
    var pair := GenerateTokens(user.id, now);
    var session := db.sessions[k];
    session := session.(tokenHash := db.H(pair.1));
    session := session.(lastUsedAt := Some(now));
    session := session.(expiresAt := now + REFRESH_TTL);
    var rotated := db.sessions[k := session];
    if !Committable(db.users, rotated) {
      return Rejected(500, MSG_REFRESH_ERROR);
    }
    RotateKeepsValid(db.users, db.sessions, k, db.H(pair.1), now);
    db.sessions := rotated;
    out := Issued(200, pair.0, pair.1, None, ToUserResponse(user));
  }

  /** logout: validate the refresh token (bumping last_used_at), then revoke that session. */
  method Logout(db: AuthDb, refreshCookie: Option<Token>, deviceCookie: Option<string>, now: int) returns (out: Outcome)
    requires db.Valid()
    modifies db
    ensures db.Valid() && RevokedRowsFrozen(old(db.sessions), db.sessions)
    ensures Step(out, db.users, db.sessions) == LogoutSpec(old(db.users), old(db.sessions), db.H, refreshCookie, deviceCookie, now)
  {
    if refreshCookie.None? || !Present(deviceCookie) {
      return Rejected(401, MSG_MISSING_COOKIES);
    }
    var session, row := ValidateRefreshToken(db, refreshCookie.value, now);
    if row.None? {
      return Rejected(401, MSG_LOGOUT_INVALID);
    }
    RevokeSession(db, row.value, now);
    out := LoggedOut;
  }

  // ------------------------------------------------------------------ lemmas

  /** The rotation keeps the invariants once the database accepts the new digest. */
  lemma RotateKeepsValid(users: seq<User>, rows: seq<Session>, k: nat, tokenHash: Digest, now: int)
    requires TablesValid(users, rows) && k < |rows| && !rows[k].revoked
    requires HashesUnique(Rotate(rows, k, tokenHash, now))
    ensures TablesValid(users, Rotate(rows, k, tokenHash, now)) && RevokedRowsFrozen(rows, Rotate(rows, k, tokenHash, now))
  {
    SameOwnersKeepValid(users, rows, Rotate(rows, k, tokenHash, now));
  }

  /** 401 and no change when a cookie is missing, the token is not a valid refresh token, or its subject is absent or 0. */
  lemma RefreshEarlyRejections(users: seq<User>, rows: seq<Session>, digest: Token -> Digest, refreshCookie: Option<Token>, deviceCookie: Option<string>, now: int)
    ensures var st := RefreshSpec(users, rows, digest, refreshCookie, deviceCookie, now);
      && (refreshCookie.None? || !Present(deviceCookie) ==> st == Step(Rejected(401, MSG_MISSING_COOKIES), users, rows))
      && (refreshCookie.Some? && Present(deviceCookie) && VerifyToken(refreshCookie.value, REFRESH, now).None? ==>
            st == Step(Rejected(401, MSG_INVALID_REFRESH), users, rows))
      && (refreshCookie.Some? && Present(deviceCookie) && VerifyToken(refreshCookie.value, REFRESH, now).Some?
          && !HasSubject(refreshCookie.value.claims)
          ==> st == Step(Rejected(401, MSG_INVALID_PAYLOAD), users, rows))
  {
  }

  /** Every refusal other than reuse detection leaves both tables as they were. */
  lemma RefreshRefusalChangesNothing(users: seq<User>, rows: seq<Session>, digest: Token -> Digest, refreshCookie: Option<Token>, deviceCookie: Option<string>, now: int)
    ensures var st := RefreshSpec(users, rows, digest, refreshCookie, deviceCookie, now);
      st.outcome.Rejected? && st.outcome.status != 403 ==> st.users == users && st.sessions == rows
  {
  }

  /** With unique digests, a row is the only one carrying its digest. */
  lemma OnlyRowWithDigest(rows: seq<Session>, k: nat)
    requires HashesUnique(rows) && k < |rows|
    ensures forall i :: 0 <= i < |rows| && rows[i].tokenHash == rows[k].tokenHash ==> i == k
  {
  }

  /**
   * Reuse detection: for a well-formed request, the answer is 403 exactly
   * when the unexpired row with this user, device and digest is revoked.
   */
  lemma ReuseDetectedIff(users: seq<User>, rows: seq<Session>, digest: Token -> Digest, token: Token, deviceId: string, now: int)
    requires HashesUnique(rows) && deviceId != ""
    requires VerifyToken(token, REFRESH, now).Some? && HasSubject(token.claims)
    ensures var st := RefreshSpec(users, rows, digest, Some(token), Some(deviceId), now);
      (st.outcome.Rejected? && st.outcome.status == 403) <==>
      exists k :: 0 <= k < |rows| && rows[k].revoked && RefreshMatch(rows[k], token.claims.userId.value, deviceId, digest(token), now)
  {
    var found := RefreshLookup(rows, token.claims.userId.value, deviceId, digest(token), now);
    if found.Some? {
      OnlyRowWithDigest(rows, found.value);
    }
  }

  /**
   * On 403 every session of the token's user, on every device, is revoked;
   * rows of other users and rows already revoked are untouched.
   */
  lemma ReuseRevokesEverySession(users: seq<User>, rows: seq<Session>, digest: Token -> Digest, token: Token, deviceCookie: Option<string>, now: int)
    requires var st := RefreshSpec(users, rows, digest, Some(token), deviceCookie, now);
      st.outcome.Rejected? && st.outcome.status == 403
    ensures HasSubject(token.claims)
    ensures var st := RefreshSpec(users, rows, digest, Some(token), deviceCookie, now);
      && st.users == users && |st.sessions| == |rows|
      && (forall i :: 0 <= i < |rows| && rows[i].userId == token.claims.userId.value ==> st.sessions[i].revoked)
      && (forall i :: 0 <= i < |rows| && (rows[i].userId != token.claims.userId.value || rows[i].revoked) ==> st.sessions[i] == rows[i])
  {
  }

  /** Row `k` is the live row the refresh matched, and `after` is the table with it rotated to `newHash`. */
  predicate RotatedRow(rows: seq<Session>, after: seq<Session>, k: int, userId: int, deviceId: string, oldHash: Digest, newHash: Digest, now: int) {
    && 0 <= k < |rows| && !rows[k].revoked
    && RefreshMatch(rows[k], userId, deviceId, oldHash, now)
    && after == Rotate(rows, k, newHash, now)
  }

  /**
   * A successful refresh rotates exactly the matched live row: new digest of
   * the new refresh token, last_used_at = now, expiry now + REFRESH_TTL; its
   * device and revoked flag and every other row stay as they were.
   */
  lemma RefreshSuccessRotatesMatchedRow(users: seq<User>, rows: seq<Session>, digest: Token -> Digest, token: Token, deviceCookie: Option<string>, now: int)
    requires RefreshSpec(users, rows, digest, Some(token), deviceCookie, now).outcome.Issued?
    ensures var st := RefreshSpec(users, rows, digest, Some(token), deviceCookie, now);
      && st.users == users && st.outcome.status == 200 && st.outcome.deviceCookie.None?
      && HasSubject(token.claims) && deviceCookie.Some?
      && st.outcome.access == GenerateTokens(token.claims.userId.value, now).0
      && st.outcome.refresh == GenerateTokens(token.claims.userId.value, now).1
      && exists k :: RotatedRow(rows, st.sessions, k, token.claims.userId.value, deviceCookie.value, digest(token), digest(st.outcome.refresh), now)
  {
    var k := RefreshLookup(rows, token.claims.userId.value, deviceCookie.value, digest(token), now).value;
    assert RotatedRow(rows, RefreshSpec(users, rows, digest, Some(token), deviceCookie, now).sessions, k,
      token.claims.userId.value, deviceCookie.value, digest(token), digest(GenerateTokens(token.claims.userId.value, now).1), now);
  }

  /**
   * Rotation monotonicity: after a successful refresh, the old refresh token
   * (issued in an earlier second, digests collision-free) matches no row any
   * more: presenting it again, from any device and at any time, is a 401 that
   * changes nothing.
   */
  lemma OldRefreshTokenRejected(
    users: seq<User>, rows: seq<Session>, digest: Token -> Digest, token: Token,
    deviceCookie: Option<string>, now: int, laterDevice: Option<string>, later: int)
    requires HashesUnique(rows)
    requires forall a, b :: digest(a) == digest(b) ==> a == b
    requires token.claims.iat != now
    requires RefreshSpec(users, rows, digest, Some(token), deviceCookie, now).outcome.Issued?
    ensures var st := RefreshSpec(users, rows, digest, Some(token), deviceCookie, now);
      var again := RefreshSpec(st.users, st.sessions, digest, Some(token), laterDevice, later);
      again.outcome.Rejected? && again.outcome.status == 401 && again.users == st.users && again.sessions == st.sessions
  {
    var st := RefreshSpec(users, rows, digest, Some(token), deviceCookie, now);
    RefreshSuccessRotatesMatchedRow(users, rows, digest, token, deviceCookie, now);
    var k :| RotatedRow(rows, st.sessions, k, token.claims.userId.value, deviceCookie.value, digest(token), digest(st.outcome.refresh), now);
    assert st.outcome.refresh.claims.iat == now;
    OnlyRowWithDigest(rows, k);
    assert forall i :: 0 <= i < |st.sessions| ==> st.sessions[i].tokenHash != digest(token);
  }

  /**
   * Tokens carry no nonce, so a refresh in the same second as the token was
   * issued hands back that very token: the presented token is not retired and
   * a second refresh with it in that second succeeds too.
   */
  lemma SameSecondRefreshKeepsOldToken(users: seq<User>, rows: seq<Session>, digest: Token -> Digest, userId: int, deviceId: string, now: int)
    requires var token := GenerateTokens(userId, now).1;
      RefreshSpec(users, rows, digest, Some(token), Some(deviceId), now).outcome.Issued?
    ensures var token := GenerateTokens(userId, now).1;
      var st := RefreshSpec(users, rows, digest, Some(token), Some(deviceId), now);
      && st.outcome.refresh == token
      && RefreshSpec(st.users, st.sessions, digest, Some(token), Some(deviceId), now).outcome.Issued?
  {
    var token := GenerateTokens(userId, now).1;
    var st := RefreshSpec(users, rows, digest, Some(token), Some(deviceId), now);
    RefreshSuccessRotatesMatchedRow(users, rows, digest, token, Some(deviceId), now);
    var k :| RotatedRow(rows, st.sessions, k, userId, deviceId, digest(token), digest(st.outcome.refresh), now);
    assert RefreshMatch(st.sessions[k], userId, deviceId, digest(token), now);
    OnlyRowWithDigest(st.sessions, k);
    assert RefreshLookup(st.sessions, userId, deviceId, digest(token), now) == Some(k);
    assert Rotate(st.sessions, k, digest(token), now) == st.sessions;
  }

  /**
   * After a logout, replaying its refresh token (still unexpired) with the
   * session's device id is treated as theft: 403, and every session of the
   * user is revoked.
   */
  lemma ReplayAfterLogoutIsReuse(
    users: seq<User>, rows: seq<Session>, digest: Token -> Digest, token: Token,
    deviceCookie: Option<string>, now: int, k: nat, later: int)
    requires HashesUnique(rows) && Present(deviceCookie)
    requires ValidateLookup(rows, digest, token, now) == Some(k)
    requires rows[k].deviceId != "" && later < rows[k].expiresAt && VerifyToken(token, REFRESH, later).Some?
    ensures var st := LogoutSpec(users, rows, digest, Some(token), deviceCookie, now);
      && st.outcome == LoggedOut
      && var again := RefreshSpec(st.users, st.sessions, digest, Some(token), Some(rows[k].deviceId), later);
        && again.outcome == Rejected(403, MSG_REUSE)
        && forall i :: 0 <= i < |rows| && rows[i].userId == rows[k].userId ==> again.sessions[i].revoked
  {
    var st := LogoutSpec(users, rows, digest, Some(token), deviceCookie, now);
    var after := RevokeAt(Touch(rows, k, now), k, now);
    assert st.sessions == after;
    assert RefreshMatch(after[k], token.claims.userId.value, rows[k].deviceId, digest(token), later);
    OnlyRowWithDigest(after, k);
    assert RefreshLookup(after, token.claims.userId.value, rows[k].deviceId, digest(token), later) == Some(k);
  }

  /** Login answers an unknown email and a wrong password with the same 401 and changes nothing. */
  lemma LoginFailuresLookAlike(
    users: seq<User>, rows: seq<Session>, digest: Token -> Digest, req: LoginRequest,
    checkPassword: (string, string) -> bool, deviceId: string, newSessionId: int, now: int)
    requires UsersValid(users)
    ensures var st := LoginSpec(users, rows, digest, req, checkPassword, deviceId, newSessionId, now);
      (forall i :: 0 <= i < |users| && users[i].email == req.email ==> !checkPassword(req.password, users[i].passwordHash))
      <==> st == Step(Rejected(401, MSG_BAD_CREDENTIALS), users, rows)
  {
  }

  /** A successful login adds one live session, under the newly generated device id, holding the digest of the new refresh token. */
  lemma LoginCreatesSession(
    users: seq<User>, rows: seq<Session>, digest: Token -> Digest, req: LoginRequest,
    checkPassword: (string, string) -> bool, deviceId: string, newSessionId: int, now: int)
    requires OneActivePerDevice(rows)
    requires LoginSpec(users, rows, digest, req, checkPassword, deviceId, newSessionId, now).outcome.Issued?
    ensures var st := LoginSpec(users, rows, digest, req, checkPassword, deviceId, newSessionId, now);
      var user := Authenticate(users, req.email, req.password, checkPassword);
      && user.Some? && st.users == users && st.outcome.status == 200 && st.outcome.deviceCookie == Some(deviceId)
      && st.outcome.access == GenerateTokens(user.value.id, now).0
      && st.outcome.refresh == GenerateTokens(user.value.id, now).1
      && |st.sessions| == |rows| + 1
      && st.sessions[|rows|] == Session(newSessionId, user.value.id, deviceId, digest(st.outcome.refresh), false, now + REFRESH_TTL, now, None, None)
      && forall i :: 0 <= i < |st.sessions| ==> (ActiveOn(st.sessions[i], user.value.id, deviceId) <==> i == |rows|)
  {
    var user := Authenticate(users, req.email, req.password, checkPassword).value;
    InsertSessionLeavesOneActive(rows, user.id, deviceId, digest(GenerateTokens(user.id, now).1), newSessionId, now);
  }

  /** Registering a taken email is a 400 that creates neither a user nor a session. */
  lemma RegisterDuplicateEmail(
    users: seq<User>, rows: seq<Session>, digest: Token -> Digest, req: RegisterRequest,
    passwordHash: string, deviceId: string, newUserId: int, newSessionId: int, now: int)
    requires exists i :: 0 <= i < |users| && users[i].email == req.email
    ensures RegisterSpec(users, rows, digest, req, passwordHash, deviceId, newUserId, newSessionId, now)
      == Step(Rejected(400, MSG_EMAIL_TAKEN), users, rows)
  {
  }

  /**
   * Logout succeeds exactly when the token validates (the device cookie is
   * only checked for presence); it then revokes that one row at `now`,
   * after stamping its last use, and no other row changes.
   */
  lemma LogoutRevokesMatchedSession(
    users: seq<User>, rows: seq<Session>, digest: Token -> Digest, token: Token, deviceCookie: Option<string>, now: int)
    requires Present(deviceCookie)
    ensures var st := LogoutSpec(users, rows, digest, Some(token), deviceCookie, now);
      var found := ValidateLookup(rows, digest, token, now);
      && (found.None? <==> st == Step(Rejected(401, MSG_LOGOUT_INVALID), users, rows))
      && (found.Some? ==>
          && st.outcome == LoggedOut && st.users == users && |st.sessions| == |rows|
          && st.sessions[found.value] == rows[found.value].(revoked := true, revokedAt := Some(now), lastUsedAt := Some(now))
          && forall i :: 0 <= i < |rows| && i != found.value ==> st.sessions[i] == rows[i])
  {
  }

  /** Logout's answer does not depend on which device id is presented. */
  lemma LogoutIgnoresDeviceValue(
    users: seq<User>, rows: seq<Session>, digest: Token -> Digest, refreshCookie: Option<Token>, d1: string, d2: string, now: int)
    requires d1 != "" && d2 != ""
    ensures LogoutSpec(users, rows, digest, refreshCookie, Some(d1), now) == LogoutSpec(users, rows, digest, refreshCookie, Some(d2), now)
  {
  }

  /** Refresh keeps every table invariant and never changes a revoked row. */
  lemma RefreshKeepsValid(users: seq<User>, rows: seq<Session>, digest: Token -> Digest, refreshCookie: Option<Token>, deviceCookie: Option<string>, now: int)
    requires TablesValid(users, rows)
    ensures var st := RefreshSpec(users, rows, digest, refreshCookie, deviceCookie, now);
      TablesValid(st.users, st.sessions) && RevokedRowsFrozen(rows, st.sessions)
  {
    if refreshCookie.Some? && Present(deviceCookie) {
      var token := refreshCookie.value;
      if VerifyToken(token, REFRESH, now).Some? && HasSubject(token.claims) {
        var userId := token.claims.userId.value;
        var found := RefreshLookup(rows, userId, deviceCookie.value, digest(token), now);
        if found.Some? {
          var k := found.value;
          var owner := FindUserById(users, rows[k].userId);
          if rows[k].revoked {
            RevokeAllKeepsValid(users, rows, userId, now);
          } else if owner.Some? {
            var h := digest(GenerateTokens(users[owner.value].id, now).1);
            if Committable(users, Rotate(rows, k, h, now)) {
              RotateKeepsValid(users, rows, k, h, now);
            }
          }
        }
      }
    }
  }

  /** Logout keeps every table invariant and never changes a revoked row. */
  lemma LogoutKeepsValid(users: seq<User>, rows: seq<Session>, digest: Token -> Digest, refreshCookie: Option<Token>, deviceCookie: Option<string>, now: int)
    requires TablesValid(users, rows)
    ensures var st := LogoutSpec(users, rows, digest, refreshCookie, deviceCookie, now);
      TablesValid(st.users, st.sessions) && RevokedRowsFrozen(rows, st.sessions)
  {
    if refreshCookie.Some? && Present(deviceCookie) {
      var found := ValidateLookup(rows, digest, refreshCookie.value, now);
      if found.Some? {
        var k := found.value;
        TouchKeepsValid(users, rows, k, now);
        RevokeAtKeepsValid(users, Touch(rows, k, now), k, now);
      }
    }
  }

  /** Login keeps every table invariant and never changes a revoked row. */
  lemma LoginKeepsValid(
    users: seq<User>, rows: seq<Session>, digest: Token -> Digest, req: LoginRequest,
    checkPassword: (string, string) -> bool, deviceId: string, newSessionId: int, now: int)
    requires TablesValid(users, rows) && forall i :: 0 <= i < |rows| ==> rows[i].id < newSessionId
    ensures var st := LoginSpec(users, rows, digest, req, checkPassword, deviceId, newSessionId, now);
      TablesValid(st.users, st.sessions) && RevokedRowsFrozen(rows, st.sessions)
  {
    var user := Authenticate(users, req.email, req.password, checkPassword);
    if user.Some? {
      var h := digest(GenerateTokens(user.value.id, now).1);
      if Committable(users, InsertSession(rows, user.value.id, deviceId, h, newSessionId, now)) {
        InsertSessionKeepsValid(users, rows, user.value.id, deviceId, h, newSessionId, now);
      }
    }
  }

  /** Register keeps every table invariant and never changes a revoked row. */
  lemma RegisterKeepsValid(
    users: seq<User>, rows: seq<Session>, digest: Token -> Digest, req: RegisterRequest,
    passwordHash: string, deviceId: string, newUserId: int, newSessionId: int, now: int)
    requires TablesValid(users, rows) && ValidRegister(req)
    requires 0 < newUserId && forall i :: 0 <= i < |users| ==> users[i].id < newUserId
    requires forall i :: 0 <= i < |rows| ==> rows[i].id < newSessionId
    ensures var st := RegisterSpec(users, rows, digest, req, passwordHash, deviceId, newUserId, newSessionId, now);
      TablesValid(st.users, st.sessions) && RevokedRowsFrozen(rows, st.sessions)
  {
    if FindUserByEmail(users, req.email).None? {
      var user := User(newUserId, req.name, req.email, passwordHash, now);
      AddUserKeepsValid(users, rows, user);
      var h := digest(GenerateTokens(newUserId, now).1);
      if Committable(users + [user], InsertSession(rows, newUserId, deviceId, h, newSessionId, now)) {
        InsertSessionKeepsValid(users + [user], rows, newUserId, deviceId, h, newSessionId, now);
      }
    }
  }
}
