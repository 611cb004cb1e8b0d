/** The session and credential store of the pandemic-data API (auth.py):
    the `users` and `sessions` tables, login, session lookup, token
    extraction from a request, the tenant check and user administration.

    Tables are maps keyed by their primary key. The database clock (NOW())
    and the process clock (utcnow()) are one parameter `now`, in seconds.
    bcrypt's `checkpw` is a function parameter and `hash_password`'s output
    is passed in; the random session token is a parameter. */
module Auth {
  import opened Strings

  datatype Option<+T> = None | Some(value: T)

  /** An HTTPException: status code and detail text. */
  datatype HttpError = HttpError(status: int, detail: string)

  datatype Result<+T> = Ok(value: T) | Err(error: HttpError)

  type Token = string

  /** JWT_EXPIRE_HOURS, the lifetime of a session. */
  const SESSION_HOURS: int := 24
  const SESSION_TTL: int := SESSION_HOURS * 60 * 60

  const ADMIN_PREFIX: string := "admin_"
  const RESEARCHER_PREFIX: string := "chercheur_"
  const BEARER_PREFIX: string := "Bearer "
  /** Default of the COUNTRY environment variable. */
  const DEFAULT_COUNTRY: string := "FRANCE"

  const AUTH_REQUIRED: HttpError := HttpError(401, "Authentication required")
  const USERNAME_TAKEN: HttpError := HttpError(400, "Username already exists")
  const USER_NOT_FOUND: HttpError := HttpError(404, "User not found")
  const FOREIGN_USER: HttpError := HttpError(403, "Can only delete users from your country")
  const ADMIN_PROTECTED: HttpError := HttpError(403, "Cannot delete admin users")

  function CountryDenied(instance: string, country: string): HttpError
  {
    HttpError(403, "Access denied: This is " + instance + " instance, you belong to " + country)
  }

  /** A row of the `users` table. */
  datatype User = User(
    id: int,
    username: string,
    passwordHash: string,
    country: string,
    role: string,
    email: Option<string>,
    fullName: Option<string>,
    isActive: bool,
    createdAt: int,
    lastLogin: Option<int>)

  /** A row of the `sessions` table; its key, the token, is the map key. */
  datatype Session = Session(userId: int, expiresAt: int, ipAddress: Option<string>, userAgent: Option<string>)

  /** The row `authenticate_user` reads: the eight columns its SELECT names
      (neither `created_at` nor `last_login`). */
  datatype LoginRow = LoginRow(
    id: int,
    username: string,
    passwordHash: string,
    country: string,
    role: string,
    email: Option<string>,
    fullName: Option<string>,
    isActive: bool)

  function LoginRowOf(u: User): LoginRow
  {
    LoginRow(u.id, u.username, u.passwordHash, u.country, u.role, u.email, u.fullName, u.isActive)
  }

  /** The row `verify_session` returns: the session joined with its user. */
  datatype Identity = Identity(id: int, username: string, country: string, role: string, isActive: bool, expiresAt: int)

  /** The row `get_users_by_country` returns: a user without its password hash. */
  datatype UserView = UserView(
    id: int,
    username: string,
    country: string,
    role: string,
    email: Option<string>,
    fullName: Option<string>,
    isActive: bool,
    createdAt: int,
    lastLogin: Option<int>)

  /** The row `create_user` returns (its RETURNING list). */
  datatype NewUserView = NewUserView(
    id: int,
    username: string,
    country: string,
    role: string,
    email: Option<string>,
    fullName: Option<string>,
    createdAt: int)

  /** The parts of an HTTP request the layer looks at: the `auth_token`
      cookie, the `Authorization` and `User-Agent` headers and the client host. */
  datatype Request = Request(
    cookie: Option<string>,
    authorization: Option<string>,
    userAgent: Option<string>,
    clientHost: Option<string>)

  // ------------------------------------------------------------------
  // Consistency of the two tables
  // ------------------------------------------------------------------

  ghost predicate UniqueUsernames(users: map<int, User>)
  {
    forall a, b :: a in users && b in users && users[a].username == users[b].username ==> a == b
  }

  /** What the schema and the code keep true: each row is stored under its
      own id, ids come from a serial counter, every session points at an
      existing user, and no username occurs twice in any country. */
  ghost predicate Consistent(users: map<int, User>, sessions: map<Token, Session>, nextId: int)
  {
    && (forall id :: id in users ==> users[id].id == id && id < nextId)
    && (forall t :: t in sessions ==> sessions[t].userId in users)
    && UniqueUsernames(users)
  }

  predicate IsAdmin(role: string)
  {
    StartsWith(role, ADMIN_PREFIX)
  }

  // ------------------------------------------------------------------
  // Sessions
  // ------------------------------------------------------------------

  /** The session row `create_session` inserts at time `now`. */
  function NewSession(userId: int, now: int, ipAddress: Option<string>, userAgent: Option<string>): Session
  {
    Session(userId, now + SESSION_TTL, ipAddress, userAgent)
  }

  /** The definition of a live session: it exists, has not expired and its
      user exists and is active. */
  ghost predicate Live(users: map<int, User>, sessions: map<Token, Session>, token: Token, now: int)
  {
    && token in sessions
    && sessions[token].expiresAt > now
    && sessions[token].userId in users
    && users[sessions[token].userId].isActive
  }

  /** The rows of `sessions s JOIN users u ON s.user_id = u.id_user
      WHERE s.token = token AND s.expires_at > now`, as (token, id) pairs. */
  function JoinRows(users: map<int, User>, sessions: map<Token, Session>, token: Token, now: int): set<(Token, int)>
  {
    set t, id | t in sessions && id in users && t == token && sessions[t].userId == id && sessions[t].expiresAt > now :: (t, id)
  }

  /** `verify_session`: fetch the joined row and keep it only when the user is
      active. It yields an identity exactly when the session is live. */
  function VerifySession(users: map<int, User>, sessions: map<Token, Session>, token: Token, now: int): (r: Option<Identity>)
    ensures r.Some? <==> Live(users, sessions, token, now)
    ensures r.Some? ==>
      var id := sessions[token].userId;
      r.value == Identity(id, users[id].username, users[id].country, users[id].role, true, sessions[token].expiresAt)
  {
    var rows := JoinRows(users, sessions, token, now);
    assert token in sessions && sessions[token].userId in users && sessions[token].expiresAt > now ==>
      (token, sessions[token].userId) in rows;
    if rows == {} then None
    else
      var row :| row in rows;
      var u := users[row.1];
      if u.isActive then Some(Identity(row.1, u.username, u.country, u.role, u.isActive, sessions[row.0].expiresAt))
      else None
  }

  /** The sessions left once the user `id` is deleted (ON DELETE CASCADE). */
  function WithoutUser(sessions: map<Token, Session>, id: int): (r: map<Token, Session>)
    ensures forall t :: t in r <==> t in sessions && sessions[t].userId != id
    ensures forall t :: t in r ==> r[t] == sessions[t]
  {
    map t | t in sessions && sessions[t].userId != id :: sessions[t]
  }

  /** Login followed by session lookup: the fresh session resolves to the
      user who logged in until its expiry. */
  lemma LoginThenIdentify(users: map<int, User>, sessions: map<Token, Session>, userId: int, token: Token,
                          now: int, later: int, ipAddress: Option<string>, userAgent: Option<string>)
    requires userId in users && users[userId].isActive
    requires now <= later < now + SESSION_TTL
    ensures var r := VerifySession(users, sessions[token := NewSession(userId, now, ipAddress, userAgent)], token, later);
            r.Some? && r.value.id == userId && r.value.username == users[userId].username
            && r.value.country == users[userId].country && r.value.role == users[userId].role
  {
  }

  /** A session that has reached its expiry no longer resolves, whether or
      not any sweep has run. */
  lemma ExpiredSessionRejected(users: map<int, User>, sessions: map<Token, Session>, token: Token, now: int)
    requires token in sessions && sessions[token].expiresAt <= now
    ensures VerifySession(users, sessions, token, now) == None
  {
  }

  /** Deleting one token leaves every other token resolving as before: two
      sessions of one user are independently revocable. */
  lemma DeleteSessionIsolated(users: map<int, User>, sessions: map<Token, Session>, token: Token, other: Token, now: int)
    ensures VerifySession(users, sessions - {token}, token, now) == None
    ensures other != token ==> VerifySession(users, sessions - {token}, other, now) == VerifySession(users, sessions, other, now)
  {
  }

  /** After a user is deleted with its sessions, none of its tokens resolves
      any more, and every other token resolves exactly as before. */
  lemma CascadeRevokes(users: map<int, User>, sessions: map<Token, Session>, id: int, t: Token, now: int)
    ensures t in sessions && sessions[t].userId == id ==>
      VerifySession(users - {id}, WithoutUser(sessions, id), t, now) == None
    ensures !(t in sessions && sessions[t].userId == id) ==>
      VerifySession(users - {id}, WithoutUser(sessions, id), t, now) == VerifySession(users, sessions, t, now)
  {
  }

  // ------------------------------------------------------------------
  // Token extraction and access checks
  // ------------------------------------------------------------------

  /** The token `get_current_user` looks up: a non-empty `auth_token` cookie,
      else the second space-separated field of an `Authorization` header
      that starts with "Bearer "; an empty token means none. */
  function ExtractToken(req: Request): (r: Option<Token>)
    ensures r.Some? ==> r.value != []
    ensures req.cookie.Some? && req.cookie.value != [] ==> r == req.cookie
    ensures (req.cookie.None? || req.cookie.value == []) && req.authorization.Some?
            && StartsWith(req.authorization.value, BEARER_PREFIX) ==>
              var h := req.authorization.value;
              && (r.None? <==> |h| == |BEARER_PREFIX| || h[|BEARER_PREFIX|] == ' ')
              && (r.Some? ==>
                    && ' ' !in r.value
                    && StartsWith(h, BEARER_PREFIX + r.value)
                    && (|BEARER_PREFIX + r.value| < |h| ==> h[|BEARER_PREFIX + r.value|] == ' '))
    ensures ((req.cookie.None? || req.cookie.value == []) &&
             (req.authorization.None? || !StartsWith(req.authorization.value, BEARER_PREFIX))) ==> r == None
  {
    var fromCookie := if req.cookie.Some? then req.cookie.value else "";
    var token :=
      if fromCookie == [] && req.authorization.Some? && StartsWith(req.authorization.value, BEARER_PREFIX)
      then FirstField(req.authorization.value[|BEARER_PREFIX|..])
      else fromCookie;
    if token == [] then None else Some(token)
  }

  /** A bearer header built from a space-free token gives that token back,
      whatever follows it after a space, as long as no cookie is set. */
  lemma BearerRoundTrip(token: Token, rest: string, req: Request)
    requires token != [] && ' ' !in token
    requires rest == [] || rest[0] == ' '
    requires req.cookie.None? || req.cookie.value == []
    requires req.authorization == Some(BEARER_PREFIX + token + rest)
    ensures ExtractToken(req) == Some(token)
  {
    var h := BEARER_PREFIX + token + rest;
    assert h[|BEARER_PREFIX|..] == token + rest;
    FirstFieldOfWord(token, rest);
  }

  /** A non-empty cookie decides the token whatever the header says. */
  lemma CookieWins(req: Request, header: Option<string>)
    requires req.cookie.Some? && req.cookie.value != []
    ensures ExtractToken(req.(authorization := header)) == ExtractToken(req)
  {
  }

  /** `require_country`: the user passes unchanged iff its country is the
      instance's country; otherwise 403. */
  function RequireCountry(user: Identity, instance: string): (r: Result<Identity>)
    ensures r.Ok? <==> user.country == instance
    ensures r.Ok? ==> r.value == user
    ensures r.Err? ==> r.error.status == 403 && r.error == CountryDenied(instance, user.country)
  {
    if user.country != instance then Err(CountryDenied(instance, user.country)) else Ok(user)
  }

  /** `os.getenv('COUNTRY', 'FRANCE')`: the instance's country, from the
      `COUNTRY` setting `env`. */
  function InstanceCountry(env: Option<string>): string
  {
    if env.Some? then env.value else DEFAULT_COUNTRY
  }

  // ------------------------------------------------------------------
  // Login lookups
  // ------------------------------------------------------------------

  /** `SELECT ... FROM users WHERE username = u AND country = c AND is_active`. */
  function MatchingIds(users: map<int, User>, username: string, country: string): (r: set<int>)
    ensures forall id :: id in r <==>
      id in users && users[id].username == username && users[id].country == country && users[id].isActive
  {
    set id | id in users && users[id].username == username && users[id].country == country && users[id].isActive
  }

  /** With usernames unique in the whole system, the login query matches at
      most one row. */
  lemma AtMostOneMatch(users: map<int, User>, username: string, country: string, a: int, b: int)
    requires UniqueUsernames(users)
    requires a in MatchingIds(users, username, country) && b in MatchingIds(users, username, country)
    ensures a == b
  {
  }

  /** `SELECT id_user FROM users WHERE username = u`: the check ignores the
      country, so a name is taken once it exists in any country. */
  predicate UsernameTaken(users: map<int, User>, username: string)
  {
    exists id :: id in users && users[id].username == username
  }

  /** Inserting a user whose name is not taken anywhere keeps usernames
      unique across all countries. */
  lemma InsertKeepsUsernamesUnique(users: map<int, User>, id: int, u: User)
    requires UniqueUsernames(users)
    requires id !in users && !UsernameTaken(users, u.username)
    ensures UniqueUsernames(users[id := u])
  {
  }

  /** A username that exists only under other countries matches no row of
      the login query, exactly like a username that does not exist. */
  lemma WrongCountryMatchesNothing(users: map<int, User>, username: string, country: string)
    requires forall id :: id in users && users[id].username == username ==> users[id].country != country
    ensures MatchingIds(users, username, country) == {}
  {
    var matches := MatchingIds(users, username, country);
    forall id
      ensures id !in matches
    {
    }
    assert matches == {};
  }

  // ------------------------------------------------------------------
  // get_users_by_country
  // ------------------------------------------------------------------

  /** `if role:` — an absent or empty role does not filter. */
  predicate FiltersRole(role: Option<string>)
  {
    role.Some? && role.value != []
  }

  predicate Listed(u: User, country: string, role: Option<string>)
  {
    u.country == country && (FiltersRole(role) ==> u.role == role.value)
  }

  function ListedIds(users: map<int, User>, country: string, role: Option<string>): set<int>
  {
    set id | id in users && Listed(users[id], country, role)
  }

  function ViewOf(id: int, u: User): UserView
  {
    UserView(id, u.username, u.country, u.role, u.email, u.fullName, u.isActive, u.createdAt, u.lastLogin)
  }

  /** `a` may come before `b` under `ORDER BY role, created_at DESC`
      (byRole) or `ORDER BY created_at DESC` (not byRole). */
  predicate Precedes(a: UserView, b: UserView, byRole: bool)
  {
    if byRole then StrLess(a.role, b.role) || (a.role == b.role && a.createdAt >= b.createdAt)
    else a.createdAt >= b.createdAt
  }

  lemma PrecedesTotal(a: UserView, b: UserView, byRole: bool)
    ensures Precedes(a, b, byRole) || Precedes(b, a, byRole)
  {
    StrLessTotal(a.role, b.role);
  }

  lemma PrecedesTrans(a: UserView, b: UserView, c: UserView, byRole: bool)
    requires Precedes(a, b, byRole) && Precedes(b, c, byRole)
    ensures Precedes(a, c, byRole)
  {
    if byRole && StrLess(a.role, b.role) && StrLess(b.role, c.role) {
      StrLessTrans(a.role, b.role, c.role);
    }
  }

  /** Two users precede each other only when their sort keys are equal: the
      order is antisymmetric up to ties. */
  lemma PrecedesAntisymmetric(a: UserView, b: UserView, byRole: bool)
    requires Precedes(a, b, byRole) && Precedes(b, a, byRole)
    ensures a.createdAt == b.createdAt
    ensures byRole ==> a.role == b.role
  {
    if byRole && StrLess(a.role, b.role) {
      if StrLess(b.role, a.role) {
        StrLessTrans(a.role, b.role, a.role);
        StrLessIrreflexive(a.role);
      } else {
        StrLessIrreflexive(a.role);
      }
    } else if byRole && StrLess(b.role, a.role) {
      StrLessIrreflexive(b.role);
    }
  }

  predicate Ordered(s: seq<UserView>, byRole: bool)
  {
    forall i :: 0 <= i < |s| - 1 ==> Precedes(s[i], s[i + 1], byRole)
  }

  lemma {:induction false} OrderedPairwise(s: seq<UserView>, byRole: bool)
    requires Ordered(s, byRole)
    ensures forall i, j :: 0 <= i < j < |s| ==> Precedes(s[i], s[j], byRole)
  {
    if |s| > 1 {
      OrderedPairwise(s[1..], byRole);
      forall j | 1 < j < |s|
        ensures Precedes(s[0], s[j], byRole)
      {
        assert s[j] == s[1..][j - 1];
        PrecedesTrans(s[0], s[1], s[j], byRole);
      }
      forall i, j | 0 <= i < j < |s|
        ensures Precedes(s[i], s[j], byRole)
      {
        if i > 0 {
          assert s[i] == s[1..][i - 1] && s[j] == s[1..][j - 1];
        }
      }
    }
  }

  function InsertView(x: UserView, s: seq<UserView>, byRole: bool): (r: seq<UserView>)
    requires Ordered(s, byRole)
    ensures Ordered(r, byRole)
    ensures multiset(r) == multiset(s) + multiset{x}
    ensures |r| == |s| + 1 && (r[0] == x || (s != [] && r[0] == s[0]))
  {
    if s == [] then [x]
    else if Precedes(x, s[0], byRole) then [x] + s
    else
      PrecedesTotal(x, s[0], byRole);
      assert s == [s[0]] + s[1..];
      [s[0]] + InsertView(x, s[1..], byRole)
  }

  function SortViews(s: seq<UserView>, byRole: bool): (r: seq<UserView>)
    ensures Ordered(r, byRole)
    ensures multiset(r) == multiset(s)
  {
    if s == [] then []
    else
      assert s == [s[0]] + s[1..];
      InsertView(s[0], SortViews(s[1..], byRole), byRole)
  }

  /** A non-empty set has a member. */
  lemma NonEmptyHasMember(s: set<int>)
    requires s != {}
    ensures exists x :: x in s
  {
    if forall x :: x !in s {
      assert false;
    }
  }

  predicate IsLeast(m: int, ids: set<int>)
  {
    m in ids && forall k :: k in ids ==> m <= k
  }

  lemma {:induction false} MinExists(ids: set<int>)
    requires ids != {}
    ensures exists m :: IsLeast(m, ids)
    decreases |ids|
  {
    NonEmptyHasMember(ids);
    var x :| x in ids;
    if !IsLeast(x, ids) {
      var y :| y in ids && y < x;
      assert y in ids - {x};
      MinExists(ids - {x});
      var m :| IsLeast(m, ids - {x});
      forall k | k in ids
        ensures m <= k
      {
        if k != x {
          assert k in ids - {x};
        }
      }
      assert IsLeast(m, ids);
    }
  }

  /** The ids of a set in ascending order: the scan order from which the
      listing is sorted. */
  function AscendingIds(ids: set<int>): (r: seq<int>)
    ensures |r| == |ids|
    ensures forall i :: 0 <= i < |r| ==> r[i] in ids
    ensures forall id :: id in ids ==> id in r
    ensures forall i, j :: 0 <= i < j < |r| ==> r[i] < r[j]
    decreases |ids|
  {
    if ids == {} then []
    else
      MinExists(ids);
      var m :| IsLeast(m, ids);
      [m] + AscendingIds(ids - {m})
  }

  /** The view of each id, in the order of `ids`. */
  function ViewsOf(users: map<int, User>, ids: seq<int>): (vs: seq<UserView>)
    requires forall i :: 0 <= i < |ids| ==> ids[i] in users
    ensures |vs| == |ids|
    ensures forall i :: 0 <= i < |ids| ==> vs[i] == ViewOf(ids[i], users[ids[i]])
  {
    seq(|ids|, i requires 0 <= i < |ids| => ViewOf(ids[i], users[ids[i]]))
  }

  lemma SameElements(r: seq<UserView>, s: seq<UserView>)
    requires multiset(r) == multiset(s)
    ensures forall v :: v in r <==> v in s
    ensures |r| == |s|
  {
    forall v
      ensures v in r <==> v in s
    {
      assert v in r <==> v in multiset(r);
      assert v in s <==> v in multiset(s);
    }
    assert |r| == |multiset(r)| == |multiset(s)| == |s|;
  }

  lemma ViewsCover(users: map<int, User>, ids: seq<int>, id: int)
    requires forall i :: 0 <= i < |ids| ==> ids[i] in users
    requires id in ids
    ensures ViewOf(id, users[id]) in ViewsOf(users, ids)
  {
    var i :| 0 <= i < |ids| && ids[i] == id;
    assert ViewsOf(users, ids)[i] == ViewOf(id, users[id]);
  }

  lemma ViewsSound(users: map<int, User>, listed: set<int>, ids: seq<int>, country: string, role: Option<string>)
    requires listed == ListedIds(users, country, role)
    requires forall i :: 0 <= i < |ids| ==> ids[i] in listed
    ensures forall v :: v in ViewsOf(users, ids) ==>
      v.id in users && Listed(users[v.id], country, role) && v == ViewOf(v.id, users[v.id])
  {
    var views := ViewsOf(users, ids);
    forall v | v in views
      ensures v.id in users && Listed(users[v.id], country, role) && v == ViewOf(v.id, users[v.id])
    {
      var i :| 0 <= i < |views| && views[i] == v;
      assert ids[i] in listed;
    }
  }

  /** Any rearrangement of the views of the listed ids, in ascending id
      order, holds exactly one view of each listed user. */
  lemma ListingContents(users: map<int, User>, country: string, role: Option<string>, r: seq<UserView>)
    requires multiset(r) == multiset(ViewsOf(users, AscendingIds(ListedIds(users, country, role))))
    ensures forall i :: 0 <= i < |r| ==>
      r[i].id in users && Listed(users[r[i].id], country, role) && r[i] == ViewOf(r[i].id, users[r[i].id])
    ensures forall id :: id in users && Listed(users[id], country, role) ==> ViewOf(id, users[id]) in r
    ensures |r| == |ListedIds(users, country, role)|
  {
    var listed := ListedIds(users, country, role);
    var ids := AscendingIds(listed);
    var views := ViewsOf(users, ids);
    SameElements(r, views);
    ViewsSound(users, listed, ids, country, role);
    forall i | 0 <= i < |r|
      ensures r[i].id in users && Listed(users[r[i].id], country, role) && r[i] == ViewOf(r[i].id, users[r[i].id])
    {
      assert r[i] in views;
    }
    forall id | id in users && Listed(users[id], country, role)
      ensures ViewOf(id, users[id]) in r
    {
      assert id in listed;
      ViewsCover(users, ids, id);
    }
  }

  /** `get_users_by_country`: exactly the users of `country` (and of `role`
      when one is given), each once, without password hashes, ordered by
      role then newest first (or newest first when a role is given). */
  function GetUsersByCountry(users: map<int, User>, country: string, role: Option<string>): (r: seq<UserView>)
    ensures forall i :: 0 <= i < |r| ==>
      r[i].id in users && Listed(users[r[i].id], country, role) && r[i] == ViewOf(r[i].id, users[r[i].id])
    ensures forall id :: id in users && Listed(users[id], country, role) ==> ViewOf(id, users[id]) in r
    ensures |r| == |ListedIds(users, country, role)|
    ensures forall i, j :: 0 <= i < j < |r| ==> Precedes(r[i], r[j], !FiltersRole(role))
  {
    var r := SortViews(ViewsOf(users, AscendingIds(ListedIds(users, country, role))), !FiltersRole(role));
    ListingContents(users, country, role, r);
    OrderedPairwise(r, !FiltersRole(role));
    r
  }

  // ------------------------------------------------------------------
  // cleanup_expired_sessions
  // ------------------------------------------------------------------

  /** A key into a fetched row. Every connection uses a RealDictCursor, whose
      rows are dicts keyed by column name only. */
  datatype RowKey = Column(name: string) | Position(index: int)

  /** The column `SELECT cleanup_expired_sessions()` yields. */
  const SWEEP_COLUMN: string := "cleanup_expired_sessions"

  /** An exception no handler catches: FastAPI's bare 500. */
  const INTERNAL_ERROR: HttpError := HttpError(500, "Internal Server Error")

  /** The row the sweep query returns, holding the number of deleted sessions. */
  function SweepRow(deletedCount: nat): (row: map<RowKey, nat>)
    ensures forall k :: k in row ==> k.Column?
    ensures Column(SWEEP_COLUMN) in row && row[Column(SWEEP_COLUMN)] == deletedCount
  {
    map[Column(SWEEP_COLUMN) := deletedCount]
  }

  /** `row[key]` on a dict row: a missing key raises KeyError, which ends the
      request with a 500. */
  function RowGet(row: map<RowKey, nat>, key: RowKey): Result<nat>
  {
    if key in row then Ok(row[key]) else Err(INTERNAL_ERROR)
  }

  /** `cleanup_expired_sessions` as written: `fetchone()[0]` asks a dict row
      for position 0, so it raises before `commit` and the sweep's deletions
      are rolled back when the connection closes. */
  function CleanupExpiredSessionsAsWritten(deletedCount: nat): (r: Result<nat>)
    ensures r == Err(INTERNAL_ERROR)
  {
    RowGet(SweepRow(deletedCount), Position(0))
  }

  /** `cleanup_expired_sessions` reading the count by its column name: it
      returns the number of sessions the sweep deleted. */
  function CleanupExpiredSessions(deletedCount: nat): (r: Result<nat>)
    ensures r == Ok(deletedCount)
  {
    RowGet(SweepRow(deletedCount), Column(SWEEP_COLUMN))
  }

  // ------------------------------------------------------------------
  // The store
  // ------------------------------------------------------------------

  /** The database: the `users` and `sessions` tables and the serial counter
      that numbers new users. */
  class AuthStore {
    var users: map<int, User>
    var sessions: map<Token, Session>
    var nextId: int

    ghost predicate Valid()
      reads this
    {
      Consistent(users, sessions, nextId)
    }

    constructor (users0: map<int, User>, sessions0: map<Token, Session>, nextId0: int)
      requires Consistent(users0, sessions0, nextId0)
      ensures Valid()
      ensures users == users0 && sessions == sessions0 && nextId == nextId0
    {
      users := users0;
      sessions := sessions0;
      nextId := nextId0;
    }

    /** `get_current_user`: the identity behind the request's token, if any. */
    function CurrentUser(req: Request, now: int): (r: Option<Identity>)
      reads this
      ensures r.Some? <==> ExtractToken(req).Some? && Live(users, sessions, ExtractToken(req).value, now)
      ensures r.Some? ==> r == VerifySession(users, sessions, ExtractToken(req).value, now)
    {
      match ExtractToken(req)
      case None => None
      case Some(token) => VerifySession(users, sessions, token, now)
    }

    /** `require_auth`: 401 exactly when there is no current user. */
    function RequireAuth(req: Request, now: int): (r: Result<Identity>)
      reads this
      ensures r.Err? <==> CurrentUser(req, now).None?
      ensures r.Err? ==> r.error == AUTH_REQUIRED
      ensures r.Ok? ==> Some(r.value) == CurrentUser(req, now)
    {
      match CurrentUser(req, now)
      case None => Err(AUTH_REQUIRED)
      case Some(user) => Ok(user)
    }

    /** `create_session`: insert one session for `userId` expiring 24 hours
        from now, keyed by the fresh token. */
    method CreateSession(userId: int, now: int, ipAddress: Option<string>, userAgent: Option<string>, freshToken: Token)
      returns (token: Token)
      requires Valid()
      requires userId in users && freshToken != [] && freshToken !in sessions
      modifies this`sessions
      ensures Valid()
      ensures token == freshToken
      ensures sessions == old(sessions)[token := NewSession(userId, now, ipAddress, userAgent)]
      ensures users == old(users) && nextId == old(nextId)
    {
      token := freshToken;
      sessions := sessions[token := NewSession(userId, now, ipAddress, userAgent)];
    }

    /** `delete_session`: remove the session with that token, if any. */
    method DeleteSession(token: Token)
      requires Valid()
      modifies this`sessions
      ensures Valid()
      ensures sessions == old(sessions) - {token}
      ensures token !in old(sessions) ==> sessions == old(sessions)
      ensures users == old(users) && nextId == old(nextId)
    {
      sessions := sessions - {token};
    }

    /** `authenticate_user`: look up the active user with that username in
        that country and check the password. Both failures give None. On
        success, the selected columns are returned and its last login is set. */
    method AuthenticateUser(username: string, password: string, country: string, now: int,
                            checkPw: (string, string) -> bool)
      returns (r: Option<LoginRow>)
      requires Valid()
      modifies this`users
      ensures Valid()
      ensures r.Some? <==>
        exists id :: id in MatchingIds(old(users), username, country) && checkPw(password, old(users)[id].passwordHash)
      ensures r.Some? ==>
        && r.value.id in MatchingIds(old(users), username, country)
        && r.value == LoginRowOf(old(users)[r.value.id])
        && checkPw(password, r.value.passwordHash)
        && users == old(users)[r.value.id := old(users)[r.value.id].(lastLogin := Some(now))]
      ensures r.None? ==> users == old(users)
      ensures sessions == old(sessions) && nextId == old(nextId)
    {
      var ids := MatchingIds(users, username, country);
      if ids == {} {
        return None;
      }
      NonEmptyHasMember(ids);
      var id :| id in ids;
      var user := users[id];
      if checkPw(password, user.passwordHash) {
        users := users[id := user.(lastLogin := Some(now))];
        r := Some(LoginRowOf(user));
      } else {
        forall other | other in ids
          ensures !checkPw(password, old(users)[other].passwordHash)
        {
          AtMostOneMatch(old(users), username, country, id, other);
        }
        r := None;
      }
    }

    /** `create_user`: reject a username used in any country; otherwise insert
        one active user under the next serial id. */
    method CreateUser(username: string, passwordHash: string, country: string, role: string,
                      email: Option<string>, fullName: Option<string>, now: int)
      returns (r: Result<NewUserView>)
      requires Valid()
      modifies this`users, this`nextId
      ensures Valid()
      ensures r.Err? <==> UsernameTaken(old(users), username)
      ensures r.Err? ==> r.error == USERNAME_TAKEN && users == old(users) && nextId == old(nextId)
      ensures r.Ok? ==>
        && r.value.id == old(nextId) && nextId == old(nextId) + 1
        && r.value.id !in old(users)
        && r.value == NewUserView(r.value.id, username, country, role, email, fullName, now)
        && users == old(users)[r.value.id := User(r.value.id, username, passwordHash, country, role, email, fullName, true, now, None)]
      ensures sessions == old(sessions)
    {
      if exists id :: id in users && users[id].username == username {
        return Err(USERNAME_TAKEN);
      }
      var id := nextId;
      users := users[id := User(id, username, passwordHash, country, role, email, fullName, true, now, None)];
      nextId := nextId + 1;
      r := Ok(NewUserView(id, username, country, role, email, fullName, now));
    }

    /** `delete_user`: 404 if the user is absent, then 403 if it belongs to
        another country, then 403 if it is an admin; otherwise the user and
        all of its sessions are removed. */
    method DeleteUser(userId: int, adminCountry: string) returns (r: Result<bool>)
      requires Valid()
      modifies this`users, this`sessions
      ensures Valid()
      ensures userId !in old(users) ==> r == Err(USER_NOT_FOUND)
      ensures userId in old(users) && old(users)[userId].country != adminCountry ==> r == Err(FOREIGN_USER)
      ensures userId in old(users) && old(users)[userId].country == adminCountry && IsAdmin(old(users)[userId].role) ==>
        r == Err(ADMIN_PROTECTED)
      ensures r.Ok? <==>
        userId in old(users) && old(users)[userId].country == adminCountry && !IsAdmin(old(users)[userId].role)
      ensures r.Ok? ==> r.value && users == old(users) - {userId} && sessions == WithoutUser(old(sessions), userId)
      ensures r.Err? ==> users == old(users) && sessions == old(sessions)
      ensures nextId == old(nextId)
    {
      if userId !in users {
        return Err(USER_NOT_FOUND);
      }
      var user := users[userId];
      if user.country != adminCountry {
        return Err(FOREIGN_USER);
      }
      if IsAdmin(user.role) {
        return Err(ADMIN_PROTECTED);
      }
      users := users - {userId};
      sessions := WithoutUser(sessions, userId);
      r := Ok(true);
    }
  }
}
