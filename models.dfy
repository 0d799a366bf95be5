/**
 * The two tables of the auth subsystem: users (src/shared/models/user.py) and
 * auth_sessions (src/shared/models/auth_session.py), as rows in sequences,
 * with the constraints their declarations and the service impose.
 */
module Models {
  import opened Wrappers
  import opened Tokens

  /** `name = Column(String(150), nullable=True)`. */
  const NAME_MAX_LENGTH: int := 150

  /** A row of `users`; the password verifier is an opaque bcrypt string. */
  datatype User = User(id: int, name: Option<string>, email: string, passwordHash: string, createdAt: int)

  /** A row of `auth_sessions`; times are whole seconds, nullable columns are options. */
  datatype Session = Session(
    id: int,
    userId: int,
    deviceId: string,
    tokenHash: Digest,
    revoked: bool,
    expiresAt: int,
    createdAt: int,
    lastUsedAt: Option<int>,
    revokedAt: Option<int>)

  /** `query(...).filter(p).first()`: the first row, in table order, that satisfies `p`. */
  function FirstMatch<T>(xs: seq<T>, p: T -> bool): (r: Option<nat>)
    ensures r.Some? ==> r.value < |xs| && p(xs[r.value])
    ensures r.Some? ==> forall j :: 0 <= j < r.value ==> !p(xs[j])
    ensures r.None? ==> forall j :: 0 <= j < |xs| ==> !p(xs[j])
  {
    if |xs| == 0 then None
    else if p(xs[0]) then Some(0)
    else match FirstMatch(xs[1..], p)
      case None => None
      case Some(k) => Some(k + 1)
  }

  /** The user whose primary key is `id`. */
  function FindUserById(users: seq<User>, id: int): (r: Option<nat>)
    ensures r.Some? ==> r.value < |users| && users[r.value].id == id
    ensures r.None? ==> forall j :: 0 <= j < |users| ==> users[j].id != id
  {
    FirstMatch(users, (u: User) => u.id == id)
  }

  /** The user whose email is `email`. */
  function FindUserByEmail(users: seq<User>, email: string): (r: Option<nat>)
    ensures r.Some? ==> r.value < |users| && users[r.value].email == email
    ensures r.None? ==> forall j :: 0 <= j < |users| ==> users[j].email != email
  {
    FirstMatch(users, (u: User) => u.email == email)
  }

  predicate NameFits(name: Option<string>) {
    name.None? || |name.value| <= NAME_MAX_LENGTH
  }

  /** Primary key, `unique=True` on email, the length of name, and ids drawn from a sequence starting at 1. */
  ghost predicate UsersValid(users: seq<User>) {
    && (forall i, j :: 0 <= i < |users| && 0 <= j < |users| && users[i].id == users[j].id ==> i == j)
    && (forall i, j :: 0 <= i < |users| && 0 <= j < |users| && users[i].email == users[j].email ==> i == j)
    && (forall i :: 0 <= i < |users| ==> 0 < users[i].id && NameFits(users[i].name))
  }

  /** A session row that is live for one (user, device) pair. */
  predicate ActiveOn(s: Session, userId: int, deviceId: string) {
    s.userId == userId && s.deviceId == deviceId && !s.revoked
  }

  predicate SessionIdsUnique(rows: seq<Session>) {
    forall i, j :: 0 <= i < |rows| && 0 <= j < |rows| && rows[i].id == rows[j].id ==> i == j
  }

  /** `refresh_token_hash = Column(Text, nullable=False, unique=True)`. */
  predicate HashesUnique(rows: seq<Session>) {
    forall i, j :: 0 <= i < |rows| && 0 <= j < |rows| && rows[i].tokenHash == rows[j].tokenHash ==> i == j
  }

  /** The service's rule: at most one non-revoked session per (user, device). */
  predicate OneActivePerDevice(rows: seq<Session>) {
    forall i, j | 0 <= i < |rows| && 0 <= j < |rows| ::
      ActiveOn(rows[i], rows[j].userId, rows[j].deviceId) && !rows[j].revoked ==> i == j
  }

  /** `UniqueConstraint('user_id', 'device_id')` as declared: over every row, revoked or not. */
  predicate UniqueUserDevice(rows: seq<Session>) {
    forall i, j | 0 <= i < |rows| && 0 <= j < |rows| ::
      rows[i].userId == rows[j].userId && rows[i].deviceId == rows[j].deviceId ==> i == j
  }

  /** A row is revoked exactly when it carries a revocation time. */
  predicate RevocationStamped(rows: seq<Session>) {
    forall i :: 0 <= i < |rows| ==> (rows[i].revoked <==> rows[i].revokedAt.Some?)
  }

  /** Some row of `users` has the primary key `id`. */
  predicate HasUser(users: seq<User>, id: int) {
    exists j :: 0 <= j < |users| && users[j].id == id
  }

  /** `ForeignKey("users.id")`: every session belongs to an existing user. */
  predicate SessionsOwned(users: seq<User>, rows: seq<Session>) {
    forall i :: 0 <= i < |rows| ==> HasUser(users, rows[i].userId)
  }

  /**
   * What the database checks when a transaction commits: the unique hash and
   * the user foreign key. A commit that breaks either raises and is rolled back.
   */
  predicate Committable(users: seq<User>, rows: seq<Session>) {
    HashesUnique(rows) && SessionsOwned(users, rows)
  }

  /** Everything the tables keep between requests. */
  ghost predicate TablesValid(users: seq<User>, rows: seq<Session>) {
    && UsersValid(users)
    && SessionIdsUnique(rows)
    && HashesUnique(rows)
    && OneActivePerDevice(rows)
    && RevocationStamped(rows)
    && SessionsOwned(users, rows)
  }

  /**
   * Revocation is terminal: every row of `a` is still at its place in `b`,
   * and a row that was revoked in `a` is unchanged in `b` (so never un-revoked,
   * its hash never replaced, its revocation time kept).
   */
  ghost predicate RevokedRowsFrozen(a: seq<Session>, b: seq<Session>) {
    |a| <= |b| &&
    forall i :: 0 <= i < |a| ==> b[i].id == a[i].id && (a[i].revoked ==> b[i] == a[i])
  }

  /** The users that remain when the user `id` is deleted. */
  function UsersWithout(users: seq<User>, id: int): (r: seq<User>)
    ensures forall u :: u in r <==> u in users && u.id != id
  {
    if users == [] then []
    else (if users[0].id == id then [] else [users[0]]) + UsersWithout(users[1..], id)
  }

  /** The sessions that remain when the user `id` is deleted. */
  function SessionsWithout(rows: seq<Session>, id: int): (r: seq<Session>)
    ensures forall s :: s in r <==> s in rows && s.userId != id
  {
    if rows == [] then []
    else (if rows[0].userId == id then [] else [rows[0]]) + SessionsWithout(rows[1..], id)
  }

  /**
   * `cascade="all, delete-orphan"` on User.auth_sessions and `ondelete="CASCADE"`
   * on the foreign key: deleting a user deletes its sessions, so no session
   * is left without its owner.
   */
  lemma {:induction false} CascadeKeepsSessionsOwned(users: seq<User>, rows: seq<Session>, id: int)
    requires SessionsOwned(users, rows)
    ensures SessionsOwned(UsersWithout(users, id), SessionsWithout(rows, id))
  {
    var us, rs := UsersWithout(users, id), SessionsWithout(rows, id);
    forall i | 0 <= i < |rs|
      ensures HasUser(us, rs[i].userId)
    {
      assert rs[i] in rs;
      var k :| 0 <= k < |rows| && rows[k] == rs[i];
      var j :| 0 <= j < |users| && users[j].id == rows[k].userId;
      assert users[j] in us;
      var j' :| 0 <= j' < |us| && us[j'] == users[j];
    }
  }
}
