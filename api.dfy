/** The authentication endpoints of the pandemic-data API
    (api_pandemies.py): login, logout, "who am I", user administration and
    session cleanup, and the guard that every protected data endpoint runs
    before its query. Each endpoint takes the `COUNTRY` setting (`env`, unset
    as None) and the current time explicitly. */
module Api {
  import opened Strings
  import opened Auth

  /** Body of POST /auth/login. */
  datatype LoginRequest = LoginRequest(username: string, password: string)

  /** Body of POST /auth/users. */
  datatype CreateUserRequest = CreateUserRequest(
    username: string,
    password: string,
    role: string,
    email: Option<string>,
    fullName: Option<string>)

  /** The user summary a successful login returns. */
  datatype PublicUser = PublicUser(username: string, country: string, role: string, fullName: Option<string>)

  /** The `auth_token` cookie a successful login sets. */
  datatype Cookie = Cookie(name: string, value: Token, maxAge: int)

  datatype LoginResponse = LoginResponse(message: string, user: PublicUser, cookie: Cookie)

  /** The body of GET /auth/me. */
  datatype MeView = MeView(username: string, country: string, role: string)

  datatype CreatedResponse = CreatedResponse(message: string, user: NewUserView)

  const COOKIE_NAME: string := "auth_token"
  const COOKIE_MAX_AGE: int := 24 * 60 * 60

  const INVALID_CREDENTIALS: HttpError := HttpError(401, "Invalid credentials or wrong country")
  const ADMIN_REQUIRED: HttpError := HttpError(403, "Admin access required")

  const LOGIN_OK: string := "Login successful"
  const LOGOUT_OK: string := "Logout successful"
  const CREATED_OK: string := "User created successfully"
  const DELETED_OK: string := "User deleted successfully"

  /** The countries the deployment serves. */
  const KNOWN_COUNTRIES: set<string> := {"FRANCE", "SUISSE", "USA"}

  /** A request that carries only the `auth_token` cookie. */
  function CookieRequest(token: Token): Request
  {
    Request(Some(token), None, None, None)
  }

  // ------------------------------------------------------------------
  // Guards
  // ------------------------------------------------------------------

  /** The check `role.startswith('admin_')` of each admin endpoint. */
  function RequireAdmin(user: Identity): (r: Result<Identity>)
    ensures r.Ok? <==> IsAdmin(user.role)
    ensures r.Ok? ==> r.value == user
    ensures r.Err? ==> r.error == ADMIN_REQUIRED
  {
    if !IsAdmin(user.role) then Err(ADMIN_REQUIRED) else Ok(user)
  }

  /** The prefix of every protected endpoint: the `require_auth` dependency,
      then `require_country`. It admits exactly the users with a live session
      who belong to the instance's country. */
  function Protected(store: AuthStore, req: Request, env: Option<string>, now: int): (r: Result<Identity>)
    reads store
    ensures r.Ok? <==> store.CurrentUser(req, now).Some? && store.CurrentUser(req, now).value.country == InstanceCountry(env)
    ensures r.Ok? ==> Some(r.value) == store.CurrentUser(req, now) && r.value.country == InstanceCountry(env)
    ensures store.CurrentUser(req, now).None? ==> r == Err(AUTH_REQUIRED)
    ensures store.CurrentUser(req, now).Some? && store.CurrentUser(req, now).value.country != InstanceCountry(env) ==>
      r == Err(CountryDenied(InstanceCountry(env), store.CurrentUser(req, now).value.country))
  {
    match store.RequireAuth(req, now)
    case Err(e) => Err(e)
    case Ok(user) => RequireCountry(user, InstanceCountry(env))
  }

  /** The prefix of every admin endpoint: Protected, then RequireAdmin. */
  function AdminGuard(store: AuthStore, req: Request, env: Option<string>, now: int): (r: Result<Identity>)
    reads store
    ensures r.Ok? <==> Protected(store, req, env, now).Ok? && IsAdmin(Protected(store, req, env, now).value.role)
    ensures r.Ok? ==> r == Protected(store, req, env, now) && r.value.country == InstanceCountry(env)
    ensures Protected(store, req, env, now).Err? ==> r == Protected(store, req, env, now)
    ensures Protected(store, req, env, now).Ok? && !IsAdmin(Protected(store, req, env, now).value.role) ==>
      r == Err(ADMIN_REQUIRED)
  {
    match Protected(store, req, env, now)
    case Err(e) => Err(e)
    case Ok(user) => RequireAdmin(user)
  }

  /** Tenant isolation: a user of another country is refused with 403 by
      every protected and every admin endpoint, even with a live session. */
  lemma ForeignUserRefused(store: AuthStore, req: Request, env: Option<string>, now: int)
    requires store.CurrentUser(req, now).Some?
    requires store.CurrentUser(req, now).value.country != InstanceCountry(env)
    ensures Protected(store, req, env, now).Err? && Protected(store, req, env, now).error.status == 403
    ensures AdminGuard(store, req, env, now) == Protected(store, req, env, now)
  {
  }

  /** With the `COUNTRY` setting unset, the instance serves `FRANCE`: the
      guard admits exactly the current users of `FRANCE` and refuses every
      other current user with the 403 naming `FRANCE`. */
  lemma UnsetCountryServesFrance(store: AuthStore, req: Request, now: int)
    ensures Protected(store, req, None, now).Ok? <==>
      store.CurrentUser(req, now).Some? && store.CurrentUser(req, now).value.country == "FRANCE"
    ensures store.CurrentUser(req, now).Some? && store.CurrentUser(req, now).value.country != "FRANCE" ==>
      Protected(store, req, None, now) == Err(CountryDenied("FRANCE", store.CurrentUser(req, now).value.country))
  {
  }

  // ------------------------------------------------------------------
  // Role strings
  // ------------------------------------------------------------------

  /** `valid_roles` in `create_new_user`. */
  function ValidRoles(country: string): seq<string>
  {
    [RESEARCHER_PREFIX + Lower(country), ADMIN_PREFIX + Lower(country)]
  }

  predicate IsValidRole(role: string, country: string)
  {
    role in ValidRoles(country)
  }

  function InvalidRole(country: string): HttpError
  {
    var roles := ValidRoles(country);
    HttpError(400, "Invalid role. Valid roles for " + country + ": ['" + roles[0] + "', '" + roles[1] + "']")
  }

  /** A valid role names its country: two countries that accept the same role
      string have the same lower-case name. */
  lemma RoleDeterminesCountry(role: string, c1: string, c2: string)
    requires IsValidRole(role, c1) && IsValidRole(role, c2)
    ensures Lower(c1) == Lower(c2)
  {
    var n := |RESEARCHER_PREFIX|;
    var m := |ADMIN_PREFIX|;
    if role == RESEARCHER_PREFIX + Lower(c1) {
      assert role[0] == 'c';
      assert role == RESEARCHER_PREFIX + Lower(c2);
      assert Lower(c1) == role[n..] == Lower(c2);
    } else {
      assert role == ADMIN_PREFIX + Lower(c1) && role[0] == 'a';
      assert role == ADMIN_PREFIX + Lower(c2);
      assert Lower(c1) == role[m..] == Lower(c2);
    }
  }

  /** Among the served countries, no role string is valid for two of them:
      an admin can only hand out roles of its own country. */
  lemma NoCrossCountryRole(role: string, c1: string, c2: string)
    requires c1 in KNOWN_COUNTRIES && c2 in KNOWN_COUNTRIES && c1 != c2
    ensures !(IsValidRole(role, c1) && IsValidRole(role, c2))
  {
    if IsValidRole(role, c1) && IsValidRole(role, c2) {
      RoleDeterminesCountry(role, c1, c2);
      assert false;
    }
  }

  /** Of the two valid roles, exactly the admin one passes the admin check. */
  lemma ValidRoleIsAdminIff(role: string, country: string)
    requires IsValidRole(role, country)
    ensures IsAdmin(role) <==> role == ADMIN_PREFIX + Lower(country)
  {
    if role == RESEARCHER_PREFIX + Lower(country) {
      assert role[0] == 'c';
    }
  }

  // ------------------------------------------------------------------
  // Endpoints
  // ------------------------------------------------------------------

  /** POST /auth/login. Every authentication failure, whatever its cause,
      gives the same 401; a success adds exactly one session for the user,
      sets its token as the cookie and returns the public summary. */
  method Login(store: AuthStore, req: Request, body: LoginRequest, env: Option<string>, now: int,
               checkPw: (string, string) -> bool, freshToken: Token)
    returns (r: Result<LoginResponse>)
    requires store.Valid()
    requires freshToken != [] && freshToken !in store.sessions
    modifies store
    ensures store.Valid()
    ensures r.Ok? <==> exists id :: id in MatchingIds(old(store.users), body.username, InstanceCountry(env))
                                    && checkPw(body.password, old(store.users)[id].passwordHash)
    ensures r.Err? ==> r.error == INVALID_CREDENTIALS
    ensures r.Err? ==> store.users == old(store.users) && store.sessions == old(store.sessions)
    ensures r.Ok? ==> r.value.user.country == InstanceCountry(env)
    ensures store.nextId == old(store.nextId)
    ensures r.Ok? ==>
      exists id ::
        && id in MatchingIds(old(store.users), body.username, InstanceCountry(env))
        && var u := old(store.users)[id];
           && store.users == old(store.users)[id := u.(lastLogin := Some(now))]
           && store.sessions == old(store.sessions)[freshToken :=
                NewSession(id, now, req.clientHost, Some(if req.userAgent.Some? then req.userAgent.value else ""))]
           && r.value == LoginResponse(LOGIN_OK, PublicUser(u.username, u.country, u.role, u.fullName),
                                       Cookie(COOKIE_NAME, freshToken, COOKIE_MAX_AGE))
    ensures r.Ok? ==> forall later :: now <= later < now + SESSION_TTL ==>
      store.CurrentUser(CookieRequest(freshToken), later).Some? &&
      store.CurrentUser(CookieRequest(freshToken), later).value.username == body.username &&
      store.CurrentUser(CookieRequest(freshToken), later).value.country == InstanceCountry(env)
  {
    var country := InstanceCountry(env);
    var found := store.AuthenticateUser(body.username, body.password, country, now, checkPw);
    if found.None? {
      return Err(INVALID_CREDENTIALS);
    }
    var user := found.value;
    var agent := if req.userAgent.Some? then req.userAgent.value else "";
    ghost var before := store.sessions;
    var token := store.CreateSession(user.id, now, req.clientHost, Some(agent), freshToken);
    r := Ok(LoginResponse(LOGIN_OK, PublicUser(user.username, user.country, user.role, user.fullName),
                          Cookie(COOKIE_NAME, token, COOKIE_MAX_AGE)));
    forall later | now <= later < now + SESSION_TTL
      ensures store.CurrentUser(CookieRequest(freshToken), later).Some?
      ensures store.CurrentUser(CookieRequest(freshToken), later).value.username == body.username
      ensures store.CurrentUser(CookieRequest(freshToken), later).value.country == InstanceCountry(env)
    {
      LoginThenIdentify(store.users, before, user.id, freshToken, now, later, req.clientHost, Some(agent));
    }
  }

  /** POST /auth/logout: delete the session named by the cookie, if there is
      one (the Authorization header is not consulted), and report success. */
  method Logout(store: AuthStore, req: Request) returns (message: string)
    requires store.Valid()
    modifies store
    ensures store.Valid()
    ensures message == LOGOUT_OK
    ensures store.sessions ==
      if req.cookie.Some? && req.cookie.value != [] then old(store.sessions) - {req.cookie.value}
      else old(store.sessions)
    ensures store.users == old(store.users) && store.nextId == old(store.nextId)
  {
    if req.cookie.Some? && req.cookie.value != [] {
      store.DeleteSession(req.cookie.value);
    }
    message := LOGOUT_OK;
  }

  /** GET /auth/me: the public view of the authenticated user, after the
      tenant check. */
  function Me(store: AuthStore, req: Request, env: Option<string>, now: int): (r: Result<MeView>)
    reads store
    ensures r.Ok? <==> Protected(store, req, env, now).Ok?
    ensures r.Err? ==> r.error == Protected(store, req, env, now).error
    ensures r.Ok? ==>
      var u := store.CurrentUser(req, now).value;
      r.value == MeView(u.username, u.country, u.role) && r.value.country == InstanceCountry(env)
  {
    match Protected(store, req, env, now)
    case Err(e) => Err(e)
    case Ok(user) => Ok(MeView(user.username, user.country, user.role))
  }

  /** GET /auth/users: for an admin of this instance, the users of the
      instance's country, as `get_users_by_country` lists them. */
  function GetUsers(store: AuthStore, req: Request, env: Option<string>, now: int): (r: Result<seq<UserView>>)
    reads store
    ensures r.Ok? <==> AdminGuard(store, req, env, now).Ok?
    ensures r.Err? ==> r.error == AdminGuard(store, req, env, now).error
    ensures r.Ok? ==> r.value == GetUsersByCountry(store.users, InstanceCountry(env), None)
    ensures r.Ok? ==> forall i :: 0 <= i < |r.value| ==> r.value[i].country == InstanceCountry(env)
  {
    match AdminGuard(store, req, env, now)
    case Err(e) => Err(e)
    case Ok(user) => Ok(GetUsersByCountry(store.users, user.country, None))
  }

  /** POST /auth/users: after the admin guard, the requested role must be one
      of the two roles of the caller's country; the new user is stored under
      the caller's country, never one taken from the request. */
  method CreateNewUser(store: AuthStore, req: Request, body: CreateUserRequest, env: Option<string>, now: int,
                       passwordHash: string)
    returns (r: Result<CreatedResponse>)
    requires store.Valid()
    modifies store
    ensures store.Valid()
    ensures old(AdminGuard(store, req, env, now)).Err? ==>
      r == Err(old(AdminGuard(store, req, env, now)).error)
    ensures old(AdminGuard(store, req, env, now)).Ok? && !IsValidRole(body.role, InstanceCountry(env)) ==>
      r == Err(InvalidRole(InstanceCountry(env)))
    ensures (old(AdminGuard(store, req, env, now)).Ok? && IsValidRole(body.role, InstanceCountry(env))
             && UsernameTaken(old(store.users), body.username)) ==> r == Err(USERNAME_TAKEN)
    ensures r.Ok? <==> old(AdminGuard(store, req, env, now)).Ok? && IsValidRole(body.role, InstanceCountry(env))
                       && !UsernameTaken(old(store.users), body.username)
    ensures r.Err? ==> store.users == old(store.users) && store.nextId == old(store.nextId)
    ensures r.Ok? ==>
      var id := r.value.user.id;
      && id == old(store.nextId) && store.nextId == old(store.nextId) + 1
      && id !in old(store.users)
      && r.value == CreatedResponse(CREATED_OK, NewUserView(id, body.username, InstanceCountry(env), body.role, body.email, body.fullName, now))
      && store.users == old(store.users)[id :=
           User(id, body.username, passwordHash, InstanceCountry(env), body.role, body.email, body.fullName, true, now, None)]
    ensures store.sessions == old(store.sessions)
  {
    var guard := AdminGuard(store, req, env, now);
    if guard.Err? {
      return Err(guard.error);
    }
    var country := guard.value.country;
    if body.role !in ValidRoles(country) {
      return Err(InvalidRole(country));
    }
    var created := store.CreateUser(body.username, passwordHash, country, body.role, body.email, body.fullName, now);
    match created
    case Err(e) => r := Err(e);
    case Ok(user) => r := Ok(CreatedResponse(CREATED_OK, user));
  }

  /** DELETE /auth/users/{user_id}: after the admin guard, `delete_user` with
      the caller's own country, so no admin deletes across countries. */
  method DeleteUserEndpoint(store: AuthStore, req: Request, userId: int, env: Option<string>, now: int)
    returns (r: Result<string>)
    requires store.Valid()
    modifies store
    ensures store.Valid()
    ensures old(AdminGuard(store, req, env, now)).Err? ==>
      r == Err(old(AdminGuard(store, req, env, now)).error)
    ensures old(AdminGuard(store, req, env, now)).Ok? ==>
      && (userId !in old(store.users) ==> r == Err(USER_NOT_FOUND))
      && (userId in old(store.users) && old(store.users)[userId].country != InstanceCountry(env) ==> r == Err(FOREIGN_USER))
      && ((userId in old(store.users) && old(store.users)[userId].country == InstanceCountry(env)
           && IsAdmin(old(store.users)[userId].role)) ==> r == Err(ADMIN_PROTECTED))
    ensures r.Ok? <==> old(AdminGuard(store, req, env, now)).Ok? && userId in old(store.users)
                       && old(store.users)[userId].country == InstanceCountry(env) && !IsAdmin(old(store.users)[userId].role)
    ensures r.Ok? ==>
      && r.value == DELETED_OK
      && store.users == old(store.users) - {userId}
      && store.sessions == WithoutUser(old(store.sessions), userId)
    ensures r.Err? ==> store.users == old(store.users) && store.sessions == old(store.sessions)
    ensures store.nextId == old(store.nextId)
  {
    var guard := AdminGuard(store, req, env, now);
    if guard.Err? {
      return Err(guard.error);
    }
    var deleted := store.DeleteUser(userId, guard.value.country);
    match deleted
    case Err(e) => r := Err(e);
    case Ok(_) => r := Ok(DELETED_OK);
  }

  /** The endpoint's answer to the outcome of `cleanup_expired_sessions`. */
  function CleanupReport(count: Result<nat>): Result<string>
  {
    match count
    case Err(e) => Err(e)
    case Ok(n) => Ok("Cleaned " + Decimal(n) + " expired sessions")
  }

  /** GET /auth/cleanup: after the admin guard, report the number of
      sessions the database's sweep removed (`deletedCount`), read from the
      sweep's row by its column name. */
  function CleanupSessions(store: AuthStore, req: Request, env: Option<string>, now: int, deletedCount: nat): (r: Result<string>)
    reads store
    ensures r.Ok? <==> AdminGuard(store, req, env, now).Ok?
    ensures r.Err? ==> r.error == AdminGuard(store, req, env, now).error
    ensures r.Ok? ==> r.value == "Cleaned " + Decimal(deletedCount) + " expired sessions"
  {
    match AdminGuard(store, req, env, now)
    case Err(e) => Err(e)
    case Ok(_) => CleanupReport(CleanupExpiredSessions(deletedCount))
  }

  /** GET /auth/cleanup as written: once the admin guard passes, the count
      read in `cleanup_expired_sessions` raises, so the endpoint never
      reports. */
  function CleanupSessionsAsWritten(store: AuthStore, req: Request, env: Option<string>, now: int, deletedCount: nat): (r: Result<string>)
    reads store
    ensures r.Err?
    ensures AdminGuard(store, req, env, now).Err? ==> r.error == AdminGuard(store, req, env, now).error
    ensures AdminGuard(store, req, env, now).Ok? ==> r.error == INTERNAL_ERROR
  {
    match AdminGuard(store, req, env, now)
    case Err(e) => Err(e)
    case Ok(_) => CleanupReport(CleanupExpiredSessionsAsWritten(deletedCount))
  }

  /** The discrepancy: for every admin of the instance's country the
      endpoint as written answers 500 where the corrected one reports the
      count; for everyone else the two agree. */
  lemma CleanupAsWrittenNeverReports(store: AuthStore, req: Request, env: Option<string>, now: int, deletedCount: nat)
    ensures AdminGuard(store, req, env, now).Ok? ==>
      && CleanupSessionsAsWritten(store, req, env, now, deletedCount) == Err(INTERNAL_ERROR)
      && CleanupSessions(store, req, env, now, deletedCount).Ok?
    ensures AdminGuard(store, req, env, now).Err? ==>
      CleanupSessionsAsWritten(store, req, env, now, deletedCount) == CleanupSessions(store, req, env, now, deletedCount)
  {
  }
}
