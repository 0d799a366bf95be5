/**
 * AuthService (src/api/modules/auth/service.py:72-218): user creation and
 * authentication, and the session operations that change the auth_sessions
 * table in place. Like the source's static methods, each operation takes the
 * database as a parameter.
 */
module AuthService {
  import opened Wrappers
  import opened Tokens
  import opened Models

  /**
   * The database: both tables, the id sequences that number their rows, and
   * the SHA-256 hex digest of an encoded token (hash_refresh_token), which is
   * left uninterpreted.
   */
  class AuthDb {
    const H: Token -> Digest
    var users: seq<User>
    var sessions: seq<Session>
    var nextUserId: int
    var nextSessionId: int

    ghost predicate Valid()
      reads this
    {
      && TablesValid(users, sessions)
      && 0 < nextUserId
      && (forall i :: 0 <= i < |users| ==> users[i].id < nextUserId)
      && (forall i :: 0 <= i < |sessions| ==> sessions[i].id < nextSessionId)
    }

    constructor (digest: Token -> Digest)
      ensures Valid() && H == digest
      ensures users == [] && sessions == []
    {
      H := digest;
      users, sessions := [], [];
      nextUserId, nextSessionId := 1, 1;
    }
  }

  /** Python truthiness of an optional string: present and not empty. */
  predicate Present(s: Option<string>) {
    s.Some? && s.value != ""
  }

  /** The device of a new session: the one given, or a freshly minted uuid4 when none is. */
  function ResolveDevice(deviceId: Option<string>, minted: string): (d: string)
    ensures Present(deviceId) ==> d == deviceId.value
    ensures !Present(deviceId) ==> d == minted
  {
    if Present(deviceId) then deviceId.value else minted
  }

  /**
   * authenticate_user: the user with this email when the password matches its
   * verifier (bcrypt's check is the parameter), and None for an unknown email
   * and for a wrong password alike.
   */
  function Authenticate(users: seq<User>, email: string, password: string, checkPassword: (string, string) -> bool): (r: Option<User>)
    ensures r.Some? ==> r.value in users && r.value.email == email && checkPassword(password, r.value.passwordHash)
    ensures UsersValid(users) ==>
      (r.None? <==> forall i :: 0 <= i < |users| && users[i].email == email ==> !checkPassword(password, users[i].passwordHash))
  {
    match FindUserByEmail(users, email)
    case None => None
    case Some(i) => if checkPassword(password, users[i].passwordHash) then Some(users[i]) else None
  }

  /** A new user row is acceptable to the users table. */
  lemma AddUserKeepsValid(users: seq<User>, rows: seq<Session>, u: User)
    requires TablesValid(users, rows)
    requires FindUserByEmail(users, u.email).None?
    requires forall i :: 0 <= i < |users| ==> users[i].id < u.id
    requires 0 < u.id && NameFits(u.name)
    ensures TablesValid(users + [u], rows)
  {
    var us := users + [u];
    forall i | 0 <= i < |rows|
      ensures HasUser(us, rows[i].userId)
    {
      var j :| 0 <= j < |users| && users[j].id == rows[i].userId;
      assert us[j] == users[j];
    }
  }

  /** `session.revoked = True; session.revoked_at = now`, and nothing else. */
  function RevokeRow(s: Session, now: int): (r: Session)
    ensures r.revoked && r.revokedAt == Some(now)
    ensures r.(revoked := s.revoked, revokedAt := s.revokedAt) == s
  {
    s.(revoked := true, revokedAt := Some(now))
  }

  function RevokeAt(rows: seq<Session>, k: nat, now: int): seq<Session>
    requires k < |rows|
  {
    rows[k := RevokeRow(rows[k], now)]
  }

  /** `session.last_used_at = now`. */
  function Touch(rows: seq<Session>, k: nat, now: int): seq<Session>
    requires k < |rows|
  {
    rows[k := rows[k].(lastUsedAt := Some(now))]
  }

  /** The query of create_auth_session: the non-revoked session of (user, device). */
  function ActiveLookup(rows: seq<Session>, userId: int, deviceId: string): (r: Option<nat>)
    ensures r.Some? ==> r.value < |rows| && ActiveOn(rows[r.value], userId, deviceId)
    ensures r.None? ==> forall i :: 0 <= i < |rows| ==> !ActiveOn(rows[i], userId, deviceId)
  {
    FirstMatch(rows, (s: Session) => ActiveOn(s, userId, deviceId))
  }

  /**
   * create_auth_session before its commit: revoke the live session of
   * (user, device), if there is one, and append a new live row whose hash is
   * the given digest and which expires REFRESH_TTL seconds from now.
   */
  function InsertSession(rows: seq<Session>, userId: int, deviceId: string, tokenHash: Digest, newId: int, now: int): (r: seq<Session>)
    ensures |r| == |rows| + 1
    ensures r[|rows|] == Session(newId, userId, deviceId, tokenHash, false, now + REFRESH_TTL, now, None, None)
    ensures forall i :: 0 <= i < |rows| ==>
      r[i] == rows[i] || (ActiveOn(rows[i], userId, deviceId) && r[i] == RevokeRow(rows[i], now))
  {
    var kept := match ActiveLookup(rows, userId, deviceId)
      case None => rows
      case Some(k) => RevokeAt(rows, k, now);
    kept + [Session(newId, userId, deviceId, tokenHash, false, now + REFRESH_TTL, now, None, None)]
  }

  /** create_auth_session with its commit: the new row and the new table, or None and the table unchanged. */
  function CreateAuthSessionSpec(users: seq<User>, rows: seq<Session>, userId: int, deviceId: string, tokenHash: Digest, newId: int, now: int): (Option<Session>, seq<Session>)
  {
    var inserted := InsertSession(rows, userId, deviceId, tokenHash, newId, now);
    if Committable(users, inserted) then (Some(inserted[|rows|]), inserted) else (None, rows)
  }

  /**
   * The service's rule holds after create_auth_session: the session that was
   * live for (user, device) is revoked at `now`, and the new row is the only
   * live one for that pair.
   */
  lemma {:induction false} InsertSessionLeavesOneActive(rows: seq<Session>, userId: int, deviceId: string, tokenHash: Digest, newId: int, now: int)
    requires OneActivePerDevice(rows)
    ensures var r := InsertSession(rows, userId, deviceId, tokenHash, newId, now);
      && OneActivePerDevice(r)
      && (forall i :: 0 <= i < |r| ==> (ActiveOn(r[i], userId, deviceId) <==> i == |rows|))
      && (forall i :: 0 <= i < |rows| && ActiveOn(rows[i], userId, deviceId) ==> r[i] == RevokeRow(rows[i], now))
  {
    var r := InsertSession(rows, userId, deviceId, tokenHash, newId, now);
    var found := ActiveLookup(rows, userId, deviceId);
    forall i | 0 <= i < |rows| && ActiveOn(rows[i], userId, deviceId)
      ensures r[i] == RevokeRow(rows[i], now)
    {
      assert found.Some? && found.value == i;
    }
    forall i, j | 0 <= i < |r| && 0 <= j < |r| && ActiveOn(r[i], r[j].userId, r[j].deviceId) && !r[j].revoked
      ensures i == j
    {
      if i < |rows| && j < |rows| {
        assert ActiveOn(rows[i], rows[j].userId, rows[j].deviceId);
      }
    }
  }

  /**
   * The table's `UniqueConstraint('user_id', 'device_id')` does not survive
   * create_auth_session once any row, even a revoked one, exists for the pair.
   */
  lemma InsertSessionBreaksUserDevice(rows: seq<Session>, userId: int, deviceId: string, tokenHash: Digest, newId: int, now: int, k: nat)
    requires k < |rows| && rows[k].userId == userId && rows[k].deviceId == deviceId
    ensures !UniqueUserDevice(InsertSession(rows, userId, deviceId, tokenHash, newId, now))
  {
    var r := InsertSession(rows, userId, deviceId, tokenHash, newId, now);
    assert r[k].userId == r[|rows|].userId && r[k].deviceId == r[|rows|].deviceId;
  }

  /** A committed create_auth_session keeps every table invariant and leaves revoked rows untouched. */
  lemma InsertSessionKeepsValid(users: seq<User>, rows: seq<Session>, userId: int, deviceId: string, tokenHash: Digest, newId: int, now: int)
    requires TablesValid(users, rows)
    requires forall i :: 0 <= i < |rows| ==> rows[i].id < newId
    requires Committable(users, InsertSession(rows, userId, deviceId, tokenHash, newId, now))
    ensures var r := InsertSession(rows, userId, deviceId, tokenHash, newId, now);
      TablesValid(users, r) && RevokedRowsFrozen(rows, r)
  {
    InsertSessionLeavesOneActive(rows, userId, deviceId, tokenHash, newId, now);
  }

  /** Rows keep their id, owner and device, and a revoked row stays revoked. */
  ghost predicate SameOwners(a: seq<Session>, b: seq<Session>) {
    |a| == |b| &&
    forall i :: 0 <= i < |a| ==>
      b[i].id == a[i].id && b[i].userId == a[i].userId && b[i].deviceId == a[i].deviceId && (a[i].revoked ==> b[i].revoked)
  }

  /** An in-place update that keeps owners and only adds revocations keeps the invariants it can. */
  lemma SameOwnersKeepValid(users: seq<User>, a: seq<Session>, b: seq<Session>)
    requires TablesValid(users, a) && SameOwners(a, b)
    requires RevocationStamped(b) && HashesUnique(b)
    ensures TablesValid(users, b)
  {
    forall i, j | 0 <= i < |b| && 0 <= j < |b| && ActiveOn(b[i], b[j].userId, b[j].deviceId) && !b[j].revoked
      ensures i == j
    {
      assert ActiveOn(a[i], a[j].userId, a[j].deviceId);
    }
    forall i | 0 <= i < |b|
      ensures HasUser(users, b[i].userId)
    {
      assert HasUser(users, a[i].userId);
    }
  }

  /** revoke_session keeps the invariants. */
  lemma RevokeAtKeepsValid(users: seq<User>, rows: seq<Session>, k: nat, now: int)
    requires TablesValid(users, rows) && k < |rows|
    ensures TablesValid(users, RevokeAt(rows, k, now))
    ensures !rows[k].revoked ==> RevokedRowsFrozen(rows, RevokeAt(rows, k, now))
  {
    SameOwnersKeepValid(users, rows, RevokeAt(rows, k, now));
  }

  /** Bumping last_used_at keeps the invariants. */
  lemma TouchKeepsValid(users: seq<User>, rows: seq<Session>, k: nat, now: int)
    requires TablesValid(users, rows) && k < |rows|
    ensures TablesValid(users, Touch(rows, k, now))
    ensures !rows[k].revoked ==> RevokedRowsFrozen(rows, Touch(rows, k, now))
  {
    SameOwnersKeepValid(users, rows, Touch(rows, k, now));
  }

  /** One step of revoke_all_user_sessions' loop: a live session of the user is revoked, any other row kept. */
  function RevokeIfLive(s: Session, userId: int, now: int): Session {
    if s.userId == userId && !s.revoked then RevokeRow(s, now) else s
  }

  /**
   * revoke_all_user_sessions: every session of the user ends revoked; only
   * its live rows are touched, so earlier revocation times and the rows of
   * other users stay as they were.
   */
  function RevokeAllOf(rows: seq<Session>, userId: int, now: int): (r: seq<Session>)
    ensures |r| == |rows|
    ensures forall i :: 0 <= i < |rows| && rows[i].userId == userId ==> r[i].revoked
    ensures forall i :: 0 <= i < |rows| && (rows[i].userId != userId || rows[i].revoked) ==> r[i] == rows[i]
    ensures forall i :: 0 <= i < |rows| ==> r[i] == RevokeIfLive(rows[i], userId, now)
  {
    if rows == [] then []
    else
      var head := RevokeIfLive(rows[0], userId, now);
      var tail := RevokeAllOf(rows[1..], userId, now);
      assert forall i :: 1 <= i < |rows| ==> rows[1..][i - 1] == rows[i];
      [head] + tail
  }

  /** revoke_all_user_sessions keeps the invariants and leaves revoked rows untouched. */
  lemma RevokeAllKeepsValid(users: seq<User>, rows: seq<Session>, userId: int, now: int)
    requires TablesValid(users, rows)
    ensures TablesValid(users, RevokeAllOf(rows, userId, now))
    ensures RevokedRowsFrozen(rows, RevokeAllOf(rows, userId, now))
  {
    SameOwnersKeepValid(users, rows, RevokeAllOf(rows, userId, now));
  }

  /** The query of validate_refresh_token; the device is not part of it. */
  predicate ValidateMatch(s: Session, userId: int, tokenHash: Digest, now: int) {
    s.userId == userId && s.tokenHash == tokenHash && !s.revoked && s.expiresAt > now
  }

  /**
   * validate_refresh_token's lookup: a row only when the token verifies as a
   * refresh token with a subject, and the row has that subject and the token's
   * digest, is not revoked and has not expired.
   */
  function ValidateLookup(rows: seq<Session>, digest: Token -> Digest, token: Token, now: int): (r: Option<nat>)
    ensures r.Some? ==>
      && VerifyToken(token, REFRESH, now).Some? && HasSubject(token.claims)
      && r.value < |rows| && ValidateMatch(rows[r.value], token.claims.userId.value, digest(token), now)
    ensures r.None? ==>
      || VerifyToken(token, REFRESH, now).None? || !HasSubject(token.claims)
      || forall i :: 0 <= i < |rows| ==> !ValidateMatch(rows[i], token.claims.userId.value, digest(token), now)
  {
    var payload := VerifyToken(token, REFRESH, now);
    if payload.None? || !HasSubject(payload.value) then None
    else
      var userId := payload.value.userId.value;
      var tokenHash := digest(token);
      FirstMatch(rows, (s: Session) => ValidateMatch(s, userId, tokenHash, now))
  }

  /** create_user: raises (None here) and adds nothing when the email is taken. */
  method CreateUser(db: AuthDb, name: Option<string>, email: string, passwordHash: string, now: int) returns (user: Option<User>)
    requires db.Valid() && NameFits(name)
    modifies db
    ensures db.Valid() && db.sessions == old(db.sessions) && db.nextSessionId == old(db.nextSessionId)
    ensures FindUserByEmail(old(db.users), email).Some? ==> user.None? && db.users == old(db.users)
    ensures FindUserByEmail(old(db.users), email).None? ==>
      && user == Some(User(old(db.nextUserId), name, email, passwordHash, now))
      && db.users == old(db.users) + [user.value]
  {
    if FindUserByEmail(db.users, email).Some? {
      return None;
    }
    var u := User(db.nextUserId, name, email, passwordHash, now);
    AddUserKeepsValid(db.users, db.sessions, u);
    db.users := db.users + [u];
    db.nextUserId := db.nextUserId + 1;
    user := Some(u);
  }

  /**
   * create_auth_session: revoke the live session of (user, device), insert the
   * new one, commit. A commit the database refuses leaves both tables as they were.
   */
  method CreateAuthSession(db: AuthDb, userId: int, refreshToken: Token, deviceId: Option<string>, minted: string, now: int)
    returns (session: Option<Session>)
    requires db.Valid()
    modifies db
    ensures db.Valid() && db.users == old(db.users) && db.nextUserId == old(db.nextUserId)
    ensures (session, db.sessions) ==
      CreateAuthSessionSpec(old(db.users), old(db.sessions), userId, ResolveDevice(deviceId, minted), db.H(refreshToken), old(db.nextSessionId), now)
    ensures RevokedRowsFrozen(old(db.sessions), db.sessions)
  {
    var device := ResolveDevice(deviceId, minted);
    var rows := db.sessions;
    var existing := ActiveLookup(rows, userId, device);
    if existing.Some? {
      var k := existing.value;
      rows := rows[k := rows[k].(revoked := true, revokedAt := Some(now))];
    }
    var s := Session(db.nextSessionId, userId, device, db.H(refreshToken), false, now + REFRESH_TTL, now, None, None);
    rows := rows + [s];
    assert rows == InsertSession(old(db.sessions), userId, device, db.H(refreshToken), db.nextSessionId, now);
    db.nextSessionId := db.nextSessionId + 1;
    if Committable(db.users, rows) {
      InsertSessionKeepsValid(db.users, db.sessions, userId, device, db.H(refreshToken), old(db.nextSessionId), now);
      db.sessions := rows;
      session := Some(s);
    } else {
      session := None;
    }
  }

  /**
   * validate_refresh_token: the matching session with last_used_at set to now,
   * or None and no change. `row` is the position of that session, standing
   * for the ORM object the source hands back.
   */
  method ValidateRefreshToken(db: AuthDb, token: Token, now: int) returns (session: Option<Session>, row: Option<nat>)
    requires db.Valid()
    modifies db
    ensures db.Valid() && db.users == old(db.users) && RevokedRowsFrozen(old(db.sessions), db.sessions)
    ensures row == ValidateLookup(old(db.sessions), db.H, token, now)
    ensures row.None? ==> session.None? && db.sessions == old(db.sessions)
    ensures row.Some? ==> row.value < |db.sessions| && db.sessions == Touch(old(db.sessions), row.value, now) && session == Some(db.sessions[row.value])
  {
    row := ValidateLookup(db.sessions, db.H, token, now);
    if row.None? {
      return None, None;
    }
    var k := row.value;
    TouchKeepsValid(db.users, db.sessions, k, now);
    db.sessions := Touch(db.sessions, k, now);
    session := Some(db.sessions[k]);
  }

  /** revoke_session: sets revoked and overwrites revoked_at of one row. */
  method RevokeSession(db: AuthDb, k: nat, now: int)
    requires db.Valid() && k < |db.sessions|
    modifies db
    ensures db.Valid() && db.users == old(db.users)
    ensures db.nextUserId == old(db.nextUserId) && db.nextSessionId == old(db.nextSessionId)
    ensures db.sessions == RevokeAt(old(db.sessions), k, now)
    ensures !old(db.sessions)[k].revoked ==> RevokedRowsFrozen(old(db.sessions), db.sessions)
  {
    RevokeAtKeepsValid(db.users, db.sessions, k, now);
    db.sessions := RevokeAt(db.sessions, k, now);
  }

  /** The loop of revoke_all_user_sessions over the session rows: each live session of the user is revoked at `now`. */
  method RevokeLiveSessions(rows: seq<Session>, userId: int, now: int) returns (updated: seq<Session>)
    ensures updated == RevokeAllOf(rows, userId, now)
  {
    updated := rows;
    var i := 0;
    while i < |updated|
      invariant 0 <= i <= |updated| == |rows|
      invariant forall j :: 0 <= j < i ==> updated[j] == RevokeIfLive(rows[j], userId, now)
      invariant forall j :: i <= j < |updated| ==> updated[j] == rows[j]
    {
      if updated[i].userId == userId && !updated[i].revoked {
        updated := updated[i := RevokeRow(updated[i], now)];
      }
      i := i + 1;
    }
    assert forall j :: 0 <= j < |updated| ==> updated[j] == RevokeAllOf(rows, userId, now)[j];
  }

  /** revoke_all_user_sessions: revoke the user's live sessions in place, then commit. */
  method RevokeAllUserSessions(db: AuthDb, userId: int, now: int)
    requires db.Valid()
    modifies db
    ensures db.Valid() && db.users == old(db.users)
    ensures db.sessions == RevokeAllOf(old(db.sessions), userId, now)
    ensures RevokedRowsFrozen(old(db.sessions), db.sessions)
  {
    var rows := RevokeLiveSessions(db.sessions, userId, now);
    RevokeAllKeepsValid(db.users, db.sessions, userId, now);
    db.sessions := rows;
  }

  /**
   * rotate_refresh_token (not reached from any route): revoke the old session,
   * issue a new pair for `userId` and create that user's session on the old
   * session's device. The caller's `userId` is not checked against the old
   * row's owner; when they agree, the committed table breaks its declared
   * (user, device) constraint.
   */
  method RotateRefreshToken(db: AuthDb, k: nat, userId: int, minted: string, now: int)
    returns (access: Token, refresh: Token, session: Option<Session>)
    requires db.Valid() && k < |db.sessions|
    modifies db
    ensures db.Valid() && db.users == old(db.users)
    ensures (access, refresh) == GenerateTokens(userId, now)
    ensures (session, db.sessions) ==
      CreateAuthSessionSpec(old(db.users), RevokeAt(old(db.sessions), k, now), userId,
        ResolveDevice(Some(old(db.sessions)[k].deviceId), minted), db.H(refresh), old(db.nextSessionId), now)
    ensures db.sessions[k].revoked
    ensures session.Some? && userId == old(db.sessions)[k].userId && Present(Some(old(db.sessions)[k].deviceId))
      ==> !UniqueUserDevice(db.sessions)
  {
    var deviceId := db.sessions[k].deviceId;
    RevokeSession(db, k, now);
    var pair := GenerateTokens(userId, now);
    access, refresh := pair.0, pair.1;
    ghost var revoked := db.sessions;
    session := CreateAuthSession(db, userId, refresh, Some(deviceId), minted, now);
    if session.Some? && userId == old(db.sessions)[k].userId && Present(Some(deviceId)) {
      InsertSessionBreaksUserDevice(revoked, userId, deviceId, db.H(refresh), old(db.nextSessionId), now, k);
    }
  }
}
