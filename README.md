# TaskHive authorization envelope, in Dafny

This project models the server side of a small multi-user project tracker:

- the login route checks an email and a password against the user table and, on success, sets a `token` cookie holding a signed session token;
- the project routes (`GET`, `POST`, `PUT`, `DELETE` on `/api/projects`) read that cookie, verify the token, and then list, create, update or delete rows of the project table on behalf of the user the token names.

The model keeps the handlers' exact order of steps, status codes and error messages.

Library calls are held abstract:
- jsonwebtoken's `sign`/`verify` is a `Codec` value with two arrows.
- bcrypt's `compare` is an arrow `matches`.
- The database is an in-memory map from project id to row.

Lemmas that need the token library's promise take `Sound(codec)` as a precondition. It says that a signed token verifies to the id it was signed for, and that a token is never the empty string. Both halves are needed: the handlers test `if (!token)`, which treats an empty cookie like a missing one, so the round trip alone would not let a login token through.

Files:
- `wrappers.dfy`: `Option`.
- `session.dfy`: the codec and the cookie gate that every project handler opens with.
- `projects.dfy`: rows, request and response bodies, and the newest-first listing.
- `project_routes.dfy`: `GET` as a function over the table; `POST`, `PUT` and `DELETE` as methods of the class `ProjectTable`, which changes its `rows` map in place.
- `login.dfy`: the login route, as a pure function of the read-only user table.
- `walkthrough.dfy`: one user's session run through the contracts.

The model follows the code where it departs from the project's stated intent:
- A token that fails verification answers 500 (the `catch`), not 401.
- Deleting an absent row answers 403, not "not found".
- A 403 `PUT` has already written the row (see Findings).

## Model

| member | source | states |
|---|---|---|
| Session.Authenticate | app/api/projects/route.ts:17-27 | A missing or empty `token` cookie means no caller. A present token that fails verification is rejected. Otherwise the caller is exactly the id the token verifies to. |
| Session.IssuedTokenAuthenticates | app/api/auth/login/route.ts:23-26 | Under `Sound`, a token signed for `u` passes the gate as exactly `u`. |
| Projects.NewProject | app/api/projects/route.ts:29-37 | The row a create writes is owned by the caller named by the token, takes its title, description, tech stack and status from the body, and carries the creation time the database assigns. |
| Projects.Apply | app/api/projects/route.ts:92-95 | An update never changes the owner or the creation time. Each field present in the body replaces the stored one; an absent field is kept. |
| Projects.OwnedBy | app/api/projects/route.ts:62-63 | The list query's `where: { userId }` filter: an id is selected iff it is stored and its row is owned by the caller. |
| Projects.InsertionPoint | app/api/projects/route.ts:64 | A row's place in a newest-first list: after every strictly newer row, before the first row that is not newer. |
| Projects.Insert | app/api/projects/route.ts:64 | Inserting keeps the list newest-first, and its elements are those of the old list plus exactly one copy of the new one, counted as a multiset. It keeps ids distinct when the new id is not already listed. |
| Projects.ListingOf | app/api/projects/route.ts:62-65 | Lists each selected row exactly once, as stored and newest first, and nothing else. |
| Projects.ListFor | app/api/projects/route.ts:62-65 | The list for `u` holds all of u's rows and only u's, newest first, with no duplicates. |
| Projects.ListingDetermined | app/api/projects/route.ts:62-65 | If no two of the caller's rows share a creation time, any two answers to the list query are equal. |
| ProjectRoutes.Get | app/api/projects/route.ts:48-71 | No token gives 401 "Not authenticated". A rejected token gives 500 "Error fetching projects". Otherwise the answer is 200 with a listing of exactly the caller's rows, newest first. The table is only read. |
| ProjectRoutes.ProjectTable.Create | app/api/projects/route.ts:13-43 | A malformed body gives 500 even without a token. After that: no token gives 401, a rejected token gives 500. On success exactly one row is added under the fresh id, owned by the caller and filled from the body, and it is returned with 200. No existing row changes, and every non-200 answer leaves the table unchanged. |
| ProjectRoutes.ProjectTable.Update | app/api/projects/route.ts:76-106 | The route as written. Malformed body, no token, a rejected token, or a missing or unknown id give 500, 401, 500 and 500, with the table unchanged. Otherwise the row is overwritten first. Then the answer is 200 with the new row for its owner, and 403 for anyone else, with the row already rewritten. Ids, owners and creation times never change. |
| ProjectRoutes.ProjectTable.GuardedUpdate | app/api/projects/route.ts:92-100 | The corrected route: the owner check comes before the write. A non-owner gets 403, and every non-200 answer leaves the table unchanged. The owner's update is as in Update. |
| ProjectRoutes.ProjectTable.Delete | app/api/projects/route.ts:111-143 | A malformed body gives 500. No token gives 401. A rejected token or a body without an id gives 500. An absent id or another user's row gives 403 with the table unchanged. The owner's request removes exactly that id and answers 200 "Project deleted". |
| ProjectRoutes.ForeignUpdateExhibit | app/api/projects/route.ts:92-100 | A concrete run: alice creates a row, bob's PUT on it gets 403, and the stored title is bob's anyway. |
| Login.SignIn | app/api/auth/login/route.ts:6-33 | The answer is 200 iff the email is stored and the password matches its hash. An unknown email gives 400 "User not found" and a mismatch gives 400 "Invalid password", neither with a cookie. Success gives "Login successful" and sets the cookie to the token signed for that user's id. |
| Login.UnknownEmailSkipsPasswordCheck | app/api/auth/login/route.ts:9-17 | Lookup comes first: for an unknown email, the answer is the same whatever the password and whatever the hash comparison would say. |
| Login.SignInReadsOneRow | app/api/auth/login/route.ts:9-11 | Login only reads the row for the given email: two user tables that agree on it give the same answer. |
| Login.SessionCarriesUser | app/api/auth/login/route.ts:23-30 | Under `Sound`, the cookie a successful login sets passes the project handlers' gate as exactly the logged-in user's id. |
| Walkthrough.ManageOneProject | app/api/projects/route.ts:13-143 | For a caller the gate accepts as "u1": create, list (exactly the new row), set the status to "done" through the route's own Update, list (the changed row), delete, list (empty). Every handler answers 200, and the three listings are stated in the contract. |
| Walkthrough.OneUserSession | app/api/auth/login/route.ts:6-33 | For any token library satisfying `Sound`: log in with the stored password, then run ManageOneProject with the cookie the login set. All four answers are 200, with the same three listings. |

## Left out

- The signup route is not part of this model. The user table is an input that login only reads. Email uniqueness is the map's key.
- Emails are looked up by exact key: the lookup is case-sensitive and does no trimming or normalisation, because the route passes the email to the database unchanged.
- The insides of jsonwebtoken and bcrypt are left out, and so is the signing secret from the environment; they are the `Codec` arrows and `matches`. Token expiry is not modelled because the source sets none.
- `Codec.verify` covers both reading `userId` and `jwt.verify` itself. A validly signed token without `userId` cannot come from this login route, and it is not modelled. Such a token would matter: the database client treats `userId: undefined` in the list query's filter as no filter, so its GET would list every user's rows.
- Cookies, `NextResponse`, JSON parsing and async/await are transport and are not modelled. A body that does not parse is `None`. Fields of a JSON type other than string are not modelled.
- Login's `req.json()` sits outside any `try`. What the framework answers for a malformed login body is not part of this model, so `SignIn` takes the parsed email and password.
- ProjectRoutes.ProjectTable.Create: a body that parses but lacks a field is not modelled, because the outcome depends on the database schema, which is not part of this model. `Draft` always carries all four fields.
- ProjectRoutes.ProjectTable.Create requires `freshId !in rows`. This stands for the database generating unique ids; id and timestamp generation are inputs.
- Database failures other than the ones the handlers provoke are not modelled. In a project handler, connection loss or a constraint error would also end in that handler's 500. The login route has no `try`, so there such a failure is an unhandled rejection, and what the framework answers is not part of this model.
- Concurrent requests are not modelled. In particular the race between DELETE's lookup and its delete is out of scope for a sequential model.
- ProjectRoutes.Get is a ghost function. Turning the map's key set into a list needs a choice, which Dafny allows only in ghost code. Rows created at the same instant may appear in either order, just as the database does not fix their order.
- The React pages (dashboard, signup) are views over these routes and are not modelled.

## Findings

| source | as written | input that shows it | evidently intended | confidence | as-written member | corrected member |
|---|---|---|---|---|---|---|
| app/api/projects/route.ts:92-100 | `prisma.project.update` writes the row, and only afterwards is `project.userId` compared with the caller | alice owns row `p1`; bob, with a valid token, sends `PUT {id: "p1", title: "defaced"}`: the answer is 403, yet `p1`'s title is now "defaced" | check ownership before writing, so a caller who does not own the row gets 403 and the row is unchanged | high, not executed | ProjectRoutes.ProjectTable.Update, exhibited by ProjectRoutes.ForeignUpdateExhibit | ProjectRoutes.ProjectTable.GuardedUpdate |
