# Authentication and access control of the class-management app, in Dafny

This project models the part of the class-management web application that decides
who may see what:

- **the access gate** (`middleware.ts`). It runs before each page request. It classifies
  the path as public, admin ground (`/admin…`), student ground (`/dashboard…`) or
  unguarded. It then lets the request through, redirects it, or redirects it while
  clearing the `auth-token` cookie;
- **the authenticator** (`src/lib/auth.ts`). Students log in with a register number and
  a bcrypt-checked password. The administrator logs in with a shared passkey. Each
  success signs a 24-hour JWT with the claims `{userId, registerNumber, role}` and
  returns a public projection of the user row without the password hash.
  `verifyToken` turns jsonwebtoken's verdict into `{valid, payload?}`;
- **the three HTTP handlers**. `POST /api/auth/student` and `POST /api/auth/admin` map
  the authenticator's result to 400/401/500/200 and set the session cookie.
  `GET /api/auth/me` goes from cookie to verification to a store lookup by `userId`,
  and answers 401/404/500/200.

Everything outside this code is a parameter, gathered in `Auth.Oracles`:

- the Supabase query (`lookup`, given the exact list of `.eq` filters);
- `bcrypt.compare` and `bcrypt.hash`;
- `jwt.sign` and `jwt.verify`, with the signing secret and the clock folded in.

A JavaScript exception or rejected promise is the `Threw` case of `Fallible`.
ADMIN_PASSKEY and NODE_ENV are `Option<string>` parameters. JavaScript truthiness
(`!token`, `!passkey`) is modelled exactly: an absent value and the empty string are
both falsy.

Modules: `Wrappers` (Option, Fallible), `Js` (`startsWith`, `includes`, truthiness),
`Auth`, `Http` (cookies and responses), `Middleware`, `StudentRoute`, `AdminRoute`,
`MeRoute`. The last one, `Session`, chains a login response's cookie into the gate
and into `/api/auth/me`.

Some behaviours of the code are easy to miss, and the model keeps them as written:

- Guarded paths are matched by raw prefix, so `/administrator` and `/dashboards` are
  guarded too (`Middleware.RawPrefixClassification`).
- The student login does tell "not found" apart from "Invalid password"
  (`Auth.StudentFailureMessages`).
- A missing admin row is reported as "Admin user not found". It is not a separate
  configuration error.
- `/api/auth/me` also answers 404 and 500, not only 401 and 200.

## Model

| member | source | states |
|---|---|---|
| `Js.StartsWithIsPrefix` | middleware.ts:17 | `startsWith`, compared character by character, holds exactly when the prefix is a sequence prefix of the string |
| `Js.IncludesIsMembership` | middleware.ts:10-12 | `publicRoutes.includes(pathname)` holds exactly when the path is one of the listed routes |
| `Middleware.Gate` | middleware.ts:5-41 | the only cookie the gate ever sets is the cleared `auth-token` (empty, maxAge 0) on a redirect to `/`; every redirect targets `/`, `/dashboard` or `/admin/dashboard` |
| `Middleware.GateFollowsPolicy` | middleware.ts:10-40 | the gate as written equals an independent policy: classify the path (exact public list, then `/admin` prefix, then `/dashboard` prefix), then require a non-empty cookie, a verifying token and the area's role |
| `Middleware.PrefixesDisjoint` | middleware.ts:30-37 | no path starts with both `/admin` and `/dashboard`, so the `!startsWith('/admin')` test on the student branch is redundant |
| `Middleware.GuardedPathsAreNotPublic` | middleware.ts:10-17 | no path under a guarded prefix is one of the public routes |
| `Middleware.PublicRoutesPass` | middleware.ts:10-14 | `/`, `/api/auth/student` and `/api/auth/admin` pass whatever the cookie and the verifier |
| `Middleware.UnguardedPathsPass` | middleware.ts:17-40 | a path under neither prefix passes whatever the cookie and the verifier |
| `Middleware.MissingTokenRedirectsHome` | middleware.ts:18-20 | a guarded path with no cookie or an empty one redirects to `/` without touching the cookie |
| `Middleware.OnlyRejectedTokensAreCleared` | middleware.ts:22-27 | the cookie is cleared if and only if the path is guarded, the cookie is non-empty and jsonwebtoken rejects the token |
| `Middleware.AdminAreaRejectsOtherRoles` | middleware.ts:30-32 | an `/admin…` path with a verified token whose role is not `admin` redirects to `/dashboard` |
| `Middleware.StudentAreaRejectsOtherRoles` | middleware.ts:35-37 | a `/dashboard…` path with a verified token whose role is not `student` redirects to `/admin/dashboard` |
| `Middleware.GuardedPassIffRole` | middleware.ts:17-40 | on a guarded path the request passes if and only if a non-empty token verifies and its role is `admin` (under `/admin`) or `student` (otherwise); no other role ever passes |
| `Middleware.RawPrefixClassification` | middleware.ts:17 | `/administrator` is admin ground, `/dashboards` student ground, `/api/auth/me` unguarded |
| `Http.SessionCookie` | src/app/api/auth/student/route.ts:30-35 | the login cookie is `auth-token` holding the token, httpOnly, sameSite `strict`, `secure` if and only if NODE_ENV is `production`, and its maxAge equals the token's 24-hour lifetime in seconds |
| `Http.ClearedCookie` | middleware.ts:24-26 | the logout cookie is `auth-token` with an empty value and maxAge 0 |
| `Auth.MatchesEveryFilter` | src/lib/auth.ts:23-28 | a row matches a chain of `.eq` filters exactly when it satisfies each of them |
| `Auth.ToUserKeepsPublicColumnsOnly` | src/lib/auth.ts:49-56 | the public user is determined by id, register number, name, email, role and date of birth, and by nothing else; changing the password hash never changes it |
| `Auth.AuthenticateStudent` | src/lib/auth.ts:21-63 | the result is well formed (a success has a user and a token, a failure only an error); it succeeds if and only if the `register_number`/`role = student` lookup finds a row, bcrypt accepts the password against that row's hash and signing succeeds; the user is the row's projection and the token is the one signed for the row's claims with a 24h expiry |
| `Auth.StudentFailureMessages` | src/lib/auth.ts:30-62 | no row gives "Invalid registration number or user not found"; a rejected password gives "Invalid password"; an exception in the lookup, bcrypt or the signer gives "Authentication failed" |
| `Auth.StudentClaimsAreStudent` | src/lib/auth.ts:23-47 | when the store answers honestly, the claims of a successful student login carry the typed register number and the role `student` |
| `Auth.AuthenticateAdmin` | src/lib/auth.ts:65-106 | a passkey different from ADMIN_PASSKEY (or an unset ADMIN_PASSKEY) fails with "Invalid admin passkey"; otherwise success holds if and only if the `role = admin` lookup finds a row and signing succeeds, with that row's projection and token; every result is well formed |
| `Auth.WrongPasskeyTouchesNothing` | src/lib/auth.ts:67-69 | a wrong passkey is refused before the store or the signer is consulted: the result is the same for any oracles |
| `Auth.AdminFailureMessages` | src/lib/auth.ts:72-105 | with the right passkey, no admin row gives "Admin user not found"; a thrown lookup, or a found row whose signing throws, gives "Admin authentication failed" |
| `Auth.AdminClaimsAreAdmin` | src/lib/auth.ts:72-90 | when the store answers honestly, the claims of an admin login carry the role `admin` |
| `Auth.VerifyToken` | src/lib/auth.ts:108-115 | `valid` holds exactly when jsonwebtoken accepts the token; a valid result carries the decoded payload, an invalid one no payload |
| `Auth.HashedPasswordAuthenticates` | src/lib/auth.ts:117-120 | a student whose stored hash came from `hashPassword(pw)` (bcrypt, 12 rounds) logs in with `pw`, given bcrypt accepts a password against its own hash |
| `StudentRoute.Post` | src/app/api/auth/student/route.ts:4-45 | a body that is not JSON gives 500 with no cookie; a missing or empty field gives 400; an authentication failure gives 401 with the authenticator's error unchanged; success gives 200 with `{success, user}` and the session cookie holding the issued token; a cookie is set exactly on 200 |
| `StudentRoute.IncompleteCredentialsSkipAuthentication` | src/app/api/auth/student/route.ts:8-13 | with a missing or empty field the answer is 400 and does not depend on the store, bcrypt or the signer |
| `StudentRoute.SuccessCarriesProjectionAndToken` | src/app/api/auth/student/route.ts:24-35 | a 200 body is the row's public projection (no hash, no token) and the cookie value is the token signed for that row, kept for the token's lifetime |
| `StudentRoute.WrongPasswordIsRefused` | src/app/api/auth/student/route.ts:15-22 | a password bcrypt rejects gets 401 "Invalid password" and no cookie |
| `AdminRoute.Post` | src/app/api/auth/admin/route.ts:4-45 | a body that is not JSON gives 500; a missing or empty passkey gives 400; an authentication failure gives 401 with the error passed through; success gives 200 with the user and the session cookie; a cookie is set exactly on 200 |
| `AdminRoute.MissingPasskeySkipsAuthentication` | src/app/api/auth/admin/route.ts:8-13 | a missing or empty passkey gives 400 whatever ADMIN_PASSKEY, the store and the signer are |
| `AdminRoute.WrongPasskeyIsRefused` | src/app/api/auth/admin/route.ts:15-22 | a non-empty passkey other than ADMIN_PASSKEY gets 401 "Invalid admin passkey" and no cookie |
| `AdminRoute.RightPasskeyLogsInAdmin` | src/app/api/auth/admin/route.ts:15-35 | with the right passkey the answer is 200 exactly when the admin row is found and signing succeeds; the body is the row's projection and the cookie carries the token signed for it |
| `MeRoute.Get` | src/app/api/auth/me/route.ts:5-56 | no cookie or an empty one gives 401 "No token provided"; a token jsonwebtoken rejects gives 401 "Invalid token"; then the store is asked by `id = payload.userId`: a throw gives 500 "Internal server error", no row 404 "User not found", a row 200 with its public projection; no cookie is ever set |
| `MeRoute.AnswerIgnoresPasswordHash` | src/app/api/auth/me/route.ts:24-48 | two stores whose rows differ only in the password hash give the same response |
| `MeRoute.MissingUserIdNeverSucceeds` | src/app/api/auth/me/route.ts:25-36 | a verified payload without `userId` never gets 200 from an honest store |
| `Session.StudentSessionStaysInStudentArea` | middleware.ts:29-37 | the cookie of a successful student login opens every `/dashboard…` path and is sent from every `/admin…` path to `/dashboard` |
| `Session.AdminSessionStaysInAdminArea` | middleware.ts:29-37 | the cookie of a successful admin login opens every `/admin…` path and is sent from every `/dashboard…` path to `/admin/dashboard` |
| `Session.AdminLoginThenMe` | src/app/api/auth/me/route.ts:24-48 | logging in with the configured passkey and then calling `/api/auth/me` with the cookie returns the same user the login returned, if the store still holds that row under its id |
| `Session.WrongPasskeyLeavesNoSession` | src/app/api/auth/admin/route.ts:17-22 | a wrong passkey gets 401 and no cookie, and `/api/auth/me` without a cookie is 401 |

## Left out

- bcrypt hashing and comparison, JWT signing and verification, and token expiry are
  not modelled. They are the `compare`, `hash`, `sign` and `verify` parameters (foreign
  libraries). Properties that need them to behave assume it explicitly:
  - `Auth.CodecReadsBack` says a signed token is non-empty and verifies to its claims.
  - `HashedPasswordAuthenticates` assumes bcrypt accepts a password against its own hash.
- The Supabase client is not modelled. That includes `.single()` yielding no row for
  zero or several matches, and `{data, error}` collapsing to "no row". The `lookup`
  parameter receives the exact filters. `Auth.StoreAnswers` is the assumption that a
  returned row satisfies them.
- `config.matcher` in middleware.ts is framework routing configuration. The gate is
  modelled for every path that reaches it.
- Redirect targets are modelled as paths. The absolute URL built from `request.url`
  is not modelled.
- The link between `expiresIn: '24h'` and `maxAge: 86400` is stated through the
  constants `TokenLifetimeSeconds` and `SessionMaxAge`. Parsing the duration string
  belongs to jsonwebtoken.
- Request bodies are modelled as strings or absent fields. Other JSON values (numbers,
  objects) are not modelled.
- A verified payload's claims are optional strings. The `iat`/`exp` claims and claims
  of other types are not modelled.
- MeRoute.MissingUserIdNeverSucceeds: rests on the modelling choice that `.eq('id', undefined)`
  matches no row. The query builder sends the text "undefined", and a row whose id is that
  text is not modelled.
- `MeRoute.Get` projects the full row instead of selecting only six columns. The
  response is the same.
- `console.error` logging is not modelled.
- AuthContext calls `/api/auth/logout`, but the source has no such route, so it is not
  part of this model.
- The UI pages and components and the `add-students.js` / `check-students.js` scripts
  are rendering and database I/O, so they are not modelled.
