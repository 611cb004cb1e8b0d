# Authentication and tenant isolation of the pandemic-data API

This project models, in Dafny, the authentication and authorization layer of
the per-country pandemic-data API (one FastAPI instance per country:
`FRANCE`, `SUISSE`, `USA`). The layer has two parts:

- `auth.py`: the `users` and `sessions` tables and their operations. A session
  is created at login, looked up on every request and deleted at logout. Login
  checks username, password and country together. The bearer token is read
  from the `auth_token` cookie first and from the `Authorization` header
  second. The tenant check compares the user's country with the instance's
  `COUNTRY`. Admin operations list, create and delete users.
- `api_pandemies.py`: the endpoints. Every protected endpoint runs
  `require_auth`, then `require_country`. Admin endpoints also require the
  role prefix `admin_`. `create_new_user` accepts only the roles
  `chercheur_<country>` and `admin_<country>` of the caller's own country.

The model is split into three modules:

- `strings.dfy` (`Strings`): prefix test, ASCII lower-casing, the field that
  `split(' ')` yields, code-point string order, decimal formatting.
- `auth.dfy` (`Auth`): the rows as datatypes and the query logic as pure
  functions over the two tables. It also holds the class `AuthStore`. Its
  fields are `users: map<int, User>`, `sessions: map<Token, Session>` and the
  serial counter `nextId`. Its methods perform the inserts, updates and
  deletes. Its object invariant `Valid()` holds four facts: every row is
  stored under its own id, ids are below the counter, every session points at
  an existing user, and usernames are unique across all countries.
- `api.dfy` (`Api`): the endpoints. Read-only endpoints are functions that
  read the store. Endpoints that write are methods that modify it.

The environment becomes parameters:

- the clock is `now` (seconds), one parameter for both Python's `utcnow()` and
  PostgreSQL's `NOW()`. This assumes the database's `TimeZone` is UTC (see
  "## Left out");
- the random token from `secrets.token_urlsafe(32)` is `freshToken`. It is
  required to be non-empty and not yet a key of `sessions`;
- bcrypt's `checkpw` is the function parameter `checkPw`;
- the result of `hash_password` is the parameter `passwordHash`;
- the `COUNTRY` setting is the parameter `env` (`None` when unset). The
  endpoints resolve it with `Auth.InstanceCountry`, which falls back to
  `FRANCE`;
- the deleted-row count of the database's sweep function is `deletedCount`.

Three behaviours of the code are worth knowing:

- The researcher role prefix is `chercheur_`.
- `delete_user` tests the target's country before its role. So deleting an
  admin of another country fails with "Can only delete users from your
  country". Deleting an admin of one's own country fails with "Cannot delete
  admin users".
- `logout` reads only the cookie. A token sent only in the `Authorization`
  header is not deleted, yet the endpoint still reports success.

## Model

| member | source | states |
|---|---|---|
| `Auth.VerifySession` | mspr3-deployment/shared/docker/api/auth.py:99-110 | Yields an identity exactly when the token's session exists, has `expires_at > now`, its user exists and is active. The identity carries that user's id, username, country and role and the session's expiry. |
| `Auth.LoginThenIdentify` | mspr3-deployment/shared/docker/api/auth.py:79-85 | A session inserted for an active user at `now` resolves to that user (id, username, country, role) at every time before `now + 24h`. |
| `Auth.ExpiredSessionRejected` | mspr3-deployment/shared/docker/api/auth.py:104 | A session whose expiry is not after `now` resolves to nothing, whether or not a sweep has run. |
| `Auth.DeleteSessionIsolated` | mspr3-deployment/shared/docker/api/auth.py:115-124 | After one token is deleted it no longer resolves. Every other token, including another session of the same user, resolves exactly as before. |
| `Auth.WithoutUser` | mspr3-deployment/shared/docker/api/auth.py:311-312 | The cascade keeps exactly the sessions of other users, unchanged. |
| `Auth.CascadeRevokes` | mspr3-deployment/shared/docker/api/auth.py:311-312 | After a user is deleted with its sessions, none of its tokens resolves, and every other token resolves as before. |
| `Auth.ExtractToken` | mspr3-deployment/shared/docker/api/auth.py:171-183 | A non-empty cookie is the token. Otherwise, if the header starts with `Bearer `, the token is the space-free word right after that prefix. Otherwise there is no token. An empty token counts as none. |
| `Auth.BearerRoundTrip` | mspr3-deployment/shared/docker/api/auth.py:177-180 | With no cookie, the header `Bearer ` + t + (nothing, or a space and more) yields exactly the space-free token t. |
| `Auth.CookieWins` | mspr3-deployment/shared/docker/api/auth.py:173-177 | When the cookie is non-empty, changing the `Authorization` header never changes the extracted token. |
| `Strings.FirstField` | mspr3-deployment/shared/docker/api/auth.py:180 | The result is the prefix of the text before its first space: it has no space, and the text has a space right after it or ends there. |
| `Strings.FirstFieldOfWord` | mspr3-deployment/shared/docker/api/auth.py:180 | The first field of a space-free word followed by nothing, or by a space and more, is that word. |
| `Auth.AuthStore.CurrentUser` | mspr3-deployment/shared/docker/api/auth.py:171-187 | Yields an identity exactly when the request carries a token whose session is live, and then it is that session's identity. |
| `Auth.AuthStore.RequireAuth` | mspr3-deployment/shared/docker/api/auth.py:189-198 | Fails with 401 "Authentication required" exactly when there is no current user. Otherwise it passes the current user through. |
| `Auth.RequireCountry` | mspr3-deployment/shared/docker/api/auth.py:216-226 | Passes the user unchanged exactly when its country equals the instance's country. Otherwise it fails with the 403 that names both countries. |
| `Auth.MatchingIds` | mspr3-deployment/shared/docker/api/auth.py:136-143 | The login query selects exactly the active users with that username and that country. |
| `Auth.AtMostOneMatch` | mspr3-deployment/shared/docker/api/auth.py:136-143 | With globally unique usernames, the login query matches at most one user. |
| `Auth.WrongCountryMatchesNothing` | mspr3-deployment/shared/docker/api/auth.py:140 | A username that exists only in other countries matches nothing, just like an unknown username. |
| `Auth.InsertKeepsUsernamesUnique` | mspr3-deployment/shared/docker/api/auth.py:267-280 | Inserting a user whose name is not taken in any country keeps usernames unique across all countries. |
| `Auth.GetUsersByCountry` | mspr3-deployment/shared/docker/api/auth.py:232-255 | Lists exactly the users of the country (and of the role when a non-empty role is given), each once, as views without password hash. With no role the order is role ascending then `created_at` descending; with a role it is `created_at` descending. |
| `Auth.OrderedPairwise` | mspr3-deployment/shared/docker/api/auth.py:244-252 | A listing ordered between neighbours is ordered between every pair. |
| `Strings.StrLessTotal` | mspr3-deployment/shared/docker/api/auth.py:252 | The order of `ORDER BY role` is total: of two different role strings, one comes first. |
| `Strings.StrLessTrans` | mspr3-deployment/shared/docker/api/auth.py:252 | The order of `ORDER BY role` is transitive. |
| `Strings.StrLessIrreflexive` | mspr3-deployment/shared/docker/api/auth.py:252 | No role string comes before itself. |
| `Auth.PrecedesAntisymmetric` | mspr3-deployment/shared/docker/api/auth.py:244-252 | Two users can each come before the other only when their sort keys are equal: the same `created_at`, and also the same role in the role-ordered listing. |
| `Auth.AuthStore.CreateSession` | mspr3-deployment/shared/docker/api/auth.py:72-91 | Adds exactly one session under the fresh token, for the given user, expiring at `now + 24h`, and returns that token. Users and all other sessions are unchanged. |
| `Auth.AuthStore.DeleteSession` | mspr3-deployment/shared/docker/api/auth.py:115-124 | Removes only the session with that token. An unknown token changes nothing. Users are unchanged. |
| `Auth.AuthStore.AuthenticateUser` | mspr3-deployment/shared/docker/api/auth.py:130-160 | Succeeds exactly when some active user with that username and country has a password that `checkPw` accepts. Every failure is the same `None`. On success it returns the eight columns the query selects, as read, and sets `last_login` of that one user only. Sessions are unchanged. |
| `Auth.AuthStore.CreateUser` | mspr3-deployment/shared/docker/api/auth.py:260-288 | Fails with 400 "Username already exists" exactly when the name exists in any country, and then changes nothing. Otherwise it adds exactly one active user under the next serial id, which advances by one, with the given country and role, and returns it without the hash. Sessions are unchanged. |
| `Auth.AuthStore.DeleteUser` | mspr3-deployment/shared/docker/api/auth.py:290-318 | The checks run in order: 404 if the user is absent, then 403 if it is of another country, then 403 if its role starts with `admin_`. Only when all three pass does it remove that user and, by cascade, exactly that user's sessions. A failure changes nothing. |
| `Api.RequireAdmin` | mspr3-deployment/shared/docker/api/api_pandemies.py:162-164 | Passes the user exactly when its role starts with `admin_`. Otherwise it fails with 403 "Admin access required". |
| `Api.Protected` | mspr3-deployment/shared/docker/api/api_pandemies.py:257-260 | The guard that `/stats`, `/pays`, `/evolution`, `/top` and `/recent` run before their queries. It admits exactly a current user of the instance's country, which is the `COUNTRY` setting or `FRANCE` when that is unset. No user gives 401. A user of another country gives 403, even with a live session. |
| `Api.AdminGuard` | mspr3-deployment/shared/docker/api/api_pandemies.py:157-164 | The tenant check first, then the admin check. It succeeds exactly for an admin of the instance's country and otherwise returns the first failing check's error. |
| `Api.UnsetCountryServesFrance` | mspr3-deployment/shared/docker/api/auth.py:216-226 | With `COUNTRY` unset, the guard admits exactly the current users of `FRANCE`. Every other current user gets the 403 "Access denied: This is FRANCE instance, ...". |
| `Api.ForeignUserRefused` | mspr3-deployment/shared/docker/api/api_pandemies.py:258-260 | A user of another country with a live session is refused with 403 by every protected and every admin endpoint. |
| `Api.RoleDeterminesCountry` | mspr3-deployment/shared/docker/api/api_pandemies.py:185-191 | If a role string is valid for two countries, the two countries have the same lower-case name. |
| `Api.NoCrossCountryRole` | mspr3-deployment/shared/docker/api/api_pandemies.py:185-191 | Among `FRANCE`, `SUISSE` and `USA`, no role string is valid for two different countries. |
| `Api.ValidRoleIsAdminIff` | mspr3-deployment/shared/docker/api/api_pandemies.py:179-186 | Of the two valid roles of a country, exactly `admin_<country>` passes the admin check. |
| `Api.Login` | mspr3-deployment/shared/docker/api/api_pandemies.py:86-127 | Authenticates against the `COUNTRY` setting (`FRANCE` when unset) and succeeds exactly when authentication does. Every failure is the one 401 "Invalid credentials or wrong country" and changes nothing. A success sets that user's `last_login`, adds exactly one session for its id under the fresh token, and returns only username, country (the instance's), role and full name plus the cookie. The serial counter never changes. The new token then identifies that user, of the instance's country, until it expires. |
| `Api.Logout` | mspr3-deployment/shared/docker/api/api_pandemies.py:129-137 | Deletes the session named by a non-empty cookie, and nothing else. It always reports "Logout successful". |
| `Api.Me` | mspr3-deployment/shared/docker/api/api_pandemies.py:139-151 | Succeeds exactly when the tenant guard does, and then returns the current user's username, country (the instance's) and role. Otherwise it returns the guard's error. |
| `Api.GetUsers` | mspr3-deployment/shared/docker/api/api_pandemies.py:157-167 | Only an admin of the instance's country gets the listing, which is that country's users. Otherwise the guard's error. |
| `Api.CreateNewUser` | mspr3-deployment/shared/docker/api/api_pandemies.py:169-207 | The checks run in order: the admin guard, then 400 unless the role is `chercheur_`/`admin_` + the lower-cased caller country, then the duplicate-name check. A success stores exactly one new active user under the caller's (instance's) country, with the next serial id. Every failure leaves the users unchanged. Sessions are never touched. |
| `Api.DeleteUserEndpoint` | mspr3-deployment/shared/docker/api/api_pandemies.py:209-229 | The admin guard, then `delete_user` with the caller's own country. So only a non-admin user of the instance's country is ever removed, with its sessions. Every failure changes nothing. |
| `Strings.Decimal` | mspr3-deployment/shared/docker/api/api_pandemies.py:454 | The decimal text of n: non-empty, digits only, no leading zero, and it denotes n. |
| `Auth.CleanupExpiredSessionsAsWritten` | mspr3-deployment/shared/docker/api/auth.py:324-335 | As written, the count read `fetchone()[0]` on a dict row always fails with a 500, before `commit`. |
| `Auth.CleanupExpiredSessions` | mspr3-deployment/shared/docker/api/auth.py:324-335 | Reading the count by its column name, the call returns the number of sessions the sweep deleted. |
| `Api.CleanupSessionsAsWritten` | mspr3-deployment/shared/docker/api/api_pandemies.py:445-454 | As written, the endpoint never succeeds. It returns the guard's error, or a 500 once the admin guard passes. |
| `Api.CleanupSessions` | mspr3-deployment/shared/docker/api/api_pandemies.py:445-454 | The corrected endpoint, with the count read by column name. It reports "Cleaned n expired sessions", with n in decimal without leading zeros, exactly when the admin guard passes. Otherwise it returns the guard's error. |
| `Api.CleanupAsWrittenNeverReports` | mspr3-deployment/shared/docker/api/api_pandemies.py:453-454 | For every admin of the instance's country, the endpoint as written answers 500 where the corrected one reports the count. For every other caller the two agree. |

## Left out

- `cleanup_expired_sessions` (auth.py:324-335) calls a stored SQL function whose body is not part of this model. Its effect on `sessions` is not modelled; the model takes the deleted count as the input `deletedCount`.
- `Api.CleanupSessions`: its success branch is the intended report. As written, the count read at auth.py:331 raises on the dict row, the endpoint answers 500, and the sweep is never committed (see Findings and `Api.CleanupSessionsAsWritten`).
- `create_jwt_token` and `verify_jwt_token`: calls into PyJWT, and no endpoint uses them.
- `require_role`: an async decorator that nothing uses.
- `hash_password` and bcrypt's `checkpw`: one-way, salted hashing. `checkpw` is a function parameter and the hash is an input.
- `secrets.token_urlsafe`: its entropy and unpredictability are not modelled. The token is an input that is assumed fresh and non-empty.
- `get_db_connection`: connection failures (500), transactions and concurrency. Every operation is one atomic step on the two tables.
- The generic `except Exception` turned into 500 in `create_new_user` and `delete_user_endpoint`.
- The cookie flags (`httponly`, `secure`, `samesite`), `response.delete_cookie` in logout, and CORS.
- The database queries of `/stats`, `/pays`, `/evolution`, `/top` and `/recent`. Only their shared guard (`Api.Protected`) is modelled.
- The table defaults `is_active = TRUE` and `created_at = NOW()` come from the database schema, which is not part of this model. The model assumes them.
- `Auth.GetUsersByCountry`: the contract states only the `ORDER BY` order. The model breaks ties by ascending id, where the database may return tied rows in any order. Roles are compared by code point (the "C" collation), not by the database's collation.
- `Auth.AuthStore.RequireAuth`: the 401 also carries the header `WWW-Authenticate: Bearer` (auth.py:193-197). The model keeps only the status and the detail.
- `Auth.AuthStore.AuthenticateUser`: a failure is uniform in its result and in the 401 only, not in its timing. With no matching row the function returns without running bcrypt (auth.py:144-145). With a wrong password it runs `checkpw` first (auth.py:148). So the response time can tell an unknown user in this country from a wrong password. Time is not modelled.
- `Auth.AuthStore.AuthenticateUser`: `checkPw` is a total function. A stored hash that bcrypt cannot parse makes `checkpw` raise at auth.py:148, which gives a 500. The model does not capture that.
- `Auth.LoginThenIdentify`: the 24-hour lifetime assumes the database's `TimeZone` setting is UTC. `create_session` stores the naive UTC time `utcnow() + 24h` (auth.py:80), and `verify_session` compares it with `NOW()` (auth.py:104). PostgreSQL reads that naive value in the server's time zone. Under any other zone the effective lifetime is 24 hours shifted by the zone's UTC offset (for example 22 hours under `Europe/Paris` in summer). The model's single clock `now` does not capture that shift.
- `Api.Login`: the promise that the new token identifies the user until `now + 24h` rests on the same UTC assumption as `Auth.LoginThenIdentify`.
- `Strings.Lower`: lower-cases ASCII letters only, not all of Unicode.
- `Auth.AuthStore.AuthenticateUser`: when several rows match, the query's `fetchone` picks one. The invariant `Valid()` makes at most one row match, so the model does not cover databases with duplicate usernames.
- The Streamlit dashboard and the older API copies are HTTP clients and rendering code, not part of this layer.

## Findings

| source | as written | input that shows it | evidently intended | confidence | as-written member | corrected member |
|---|---|---|---|---|---|---|
| mspr3-deployment/shared/docker/api/auth.py:331 | `cursor.fetchone()[0]` on a cursor whose factory is `RealDictCursor` (auth.py:35), where rows are dicts keyed by column name. Indexing with `0` raises KeyError before `conn.commit()`, so `/auth/cleanup` answers 500 and the sweep is rolled back. | Any `GET /auth/cleanup` from an admin of the instance's country | Read the count by its column name (`fetchone()['cleanup_expired_sessions']`), commit, and report "Cleaned n expired sessions" | high; not executed | `Api.CleanupSessionsAsWritten` | `Api.CleanupSessions` |
