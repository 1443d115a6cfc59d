# Levitt authentication core, modelled in Dafny

This project models the two sequential pieces of the Levitt app's authentication flow and proves properties about them.

* **User registration** (`UserRegistration`, `user_registration.dfy`). This is the API server's `POST /users` handler. It checks that `fullName`, `email`, `password` and `username` are all present. It then looks for an existing row with the same e-mail or username and, if one exists, reports which field conflicted (409). Otherwise it hashes the password, inserts one row and replies 201 with that row minus its `passwordHash`. The user table is a `seq<User>`:
  * `findFirst` is the first row in sequence order that matches the `OR` filter;
  * `create` appends a row carrying the id the store generated.

  The pure function `Handle` is the specification of one request. The class `UserTable` holds the table, and its method `Register` follows the handler step by step; it is proved equal to `Handle`.
* **Client session controller** (`AuthSession`, `auth_session.dfy`). This is the React `AuthProvider`. Its state is `token`, `user` and `loading`, plus two things it writes:
  * the HTTP client's global default headers (the `Authorization` entry);
  * the secure store (the `'userToken'` entry).

  Both are `map<string, string>` fields. The transitions bootstrap (`loadData`), `login`, `register` and `logout` are specified by the pure functions `AfterBootstrap`, `AfterSignIn` and `AfterLogout`. The methods of the class `AuthProvider` are proved against them. The navigation effect is the pure decision `Gate` over `(loading, token, segments)`.
* `Wrappers` (`wrappers.dfy`) holds the `Option` type that both modules use.

Outside inputs are parameters:
* bcrypt (`genSalt` + `hash`) is a function parameter `hash` of each request, because the salt is random;
* failures inside the handler's `try` block are a `Fault` parameter saying which awaited call throws;
* the HTTP replies of `/me`, `/sessions` and `/users` are `Reply` parameters, either `Success(response.data)` or `Failure`.

Modelling decisions, following the code as written:
* "Missing" means JavaScript-falsy: an absent field or the empty string.
* E-mail and username comparisons use exact string equality.
* The 409 message names "e-mail" when the *first* matching row has the submitted e-mail, and "nome de usuário" otherwise. Suppose an earlier row matches only the username and a later row matches the e-mail. Then the message names the username, even though the e-mail is taken too.
* The server's 201 body is the redacted user alone, with no token (backend/src/server.js:67-68). The client's `register` nevertheless destructures `{ token, user }` from it (src/contexts/AuthContext.tsx:81). Each file is modelled as written, and the mismatch is not reconciled.
* In a `/sessions` or `/users` reply, the `token` field is missing, `null` or a string, and the `user` field is missing, `null` or a user. A reply without a string token follows the code:
  * the state's token becomes unset and its user is the reply's `user` field (unset when that is missing or `null`); the model does not tell `undefined` from `null` in state, since both are falsy and nothing else reads them;
  * the header becomes `"Bearer undefined"` or `"Bearer null"`, as the template literal prints;
  * the secure-store write is rejected for the non-string value, so the entry is left as it was and the promise rejects.
* The `'(auth)'` test is on `segments[0]`. An empty segment list is outside the auth group.
* After `router.replace('/(tabs)')` the router reports the segments `["(tabs)"]`. After `router.replace('/(auth)/login')` it reports `["(auth)", "login"]`.
* The handler never chooses a row's id; the store generates it. The id is a string parameter `newId` of each request, like `hash`. The only thing assumed of it, and only where uniqueness of ids is claimed, is that no row already has it. The Prisma schema is not part of this model.

## Model

| member | source | states |
|---|---|---|
| `UserRegistration.Complete` | backend/src/server.js:34 | all four required fields are JavaScript-truthy: each is present and non-empty; otherwise one of them is absent or the empty string |
| `UserRegistration.ConflictMessage` | backend/src/server.js:52 | the 409 message is "Este ", the field name, then " já está em uso.", so the field name can be read back from it |
| `UserRegistration.Redact` | backend/src/server.js:67 | the row without `passwordHash`: it keeps id, name, e-mail and username, and has no place for the hash |
| `UserRegistration.FindFirst` | backend/src/server.js:40-47 | returns the index of the first row whose e-mail or username equals the input, with no earlier row matching; returns none exactly when no row matches |
| `UserRegistration.ConflictLabel` | backend/src/server.js:51 | the conflict field is "e-mail" exactly when the found row's e-mail equals the submitted one, else "nome de usuário" |
| `UserRegistration.Handle` | backend/src/server.js:31-74 | every reply is 201, 400, 409 or 500, and the table changes exactly when the reply is 201 |
| `UserRegistration.IncompleteRejected` | backend/src/server.js:34-36 | the reply is 400 exactly when some required field is absent or empty; then the body is the fixed message and the table is unchanged |
| `UserRegistration.ConflictRejected` | backend/src/server.js:40-53 | with all fields present and a working lookup, the reply is 409 exactly when some row has the same e-mail or username, and then no row is created |
| `UserRegistration.ConflictNamesField` | backend/src/server.js:49-52 | the 409 message names the field of the first matching row: e-mail when that row has the e-mail (e-mail wins when it matches both), otherwise username, and then that row has the username |
| `UserRegistration.ConflictLabelSound` | backend/src/server.js:51-52 | a 409 naming "e-mail" implies the e-mail is taken, and one naming "nome de usuário" implies the username is taken |
| `UserRegistration.CreatesExactlyOne` | backend/src/server.js:55-68 | 201 happens exactly when all fields are present, nothing conflicts and nothing fails; then exactly one row is appended with the store's id and the given name, e-mail, username and hash(password), earlier rows are kept, and the body is that row redacted |
| `UserRegistration.StorageFailureUnchanged` | backend/src/server.js:38-73 | when the lookup, the hashing or the insert throws, the table is unchanged and the reply is 500 (or the 409 already decided); a failed lookup always gives 500 |
| `UserRegistration.RedactIgnoresHash` | backend/src/server.js:67 | two rows have the same public view exactly when they differ at most in the password hash |
| `UserRegistration.ReplyIndependentOfHash` | backend/src/server.js:55-68 | the reply is the same whatever the hash function returns, so the secret never appears in it |
| `UserRegistration.HandlePreservesUniqueKeys` | backend/src/server.js:40-65 | from a table with unique e-mails and usernames, one request keeps both unique, whatever its fields, id or fault |
| `UserRegistration.HandlePreservesValid` | backend/src/server.js:40-65 | from a table with unique e-mails, usernames and ids, a request whose store key is not yet in use keeps all three unique |
| `UserRegistration.RunPreservesUniqueKeys` | backend/src/server.js:40-65 | from a table with unique e-mails and usernames, any sequence of requests keeps both unique |
| `UserRegistration.RunPreservesValid` | backend/src/server.js:40-65 | from a table with unique e-mails, usernames and ids, a sequence of requests whose store keys are fresh keeps all three unique |
| `UserRegistration.RunOnlyAppends` | backend/src/server.js:58-65 | a sequence of requests only appends: the earlier table is a prefix of the later one |
| `UserRegistration.UserTable.constructor` | backend/src/server.js:10 | the table as the store holds it at start-up, with any rows that already have unique e-mails, usernames and ids |
| `UserRegistration.UserTable.Register` | backend/src/server.js:31-74 | the handler's steps (validate, look up, report conflict, hash, insert, redact) give the reply and new table of `Handle`, and keep e-mails and usernames unique |
| `AuthSession.AfterLogout` | src/contexts/AuthContext.tsx:88-93 | logout clears token and user and removes the `Authorization` header and the `'userToken'` entry; every other header and entry, and `loading`, are kept |
| `AuthSession.AfterBootstrap` | src/contexts/AuthContext.tsx:35-54 | bootstrap always ends with `loading` false; with no truthy stored token nothing else changes; with one and a successful `/me`, user is the reply, token is the stored token and the header is "Bearer " + token; with a failed `/me` the state is the logged-out one |
| `AuthSession.AfterSignIn` | src/contexts/AuthContext.tsx:70-86 | a failed request changes nothing and rejects; a success sets user from the reply, and a token in state exactly when the reply's token is a string; then the header is "Bearer " + token, the stored entry is the token and the call resolves; with a missing or `null` token, the header is "Bearer undefined" or "Bearer null", the entry is kept and the call rejects |
| `AuthSession.Gate` | src/contexts/AuthContext.tsx:58-68 | no redirect while loading; redirects to tabs exactly when there is a token on an auth screen, and to login exactly when there is no token outside the auth group |
| `AuthSession.LogoutIdempotent` | src/contexts/AuthContext.tsx:88-93 | logging out twice leaves the same state as logging out once |
| `AuthSession.BootstrapWithoutToken` | src/contexts/AuthContext.tsx:28-38 | from the first render with no stored token (or an empty one), bootstrap leaves token and user null, headers and store untouched, and loading false |
| `AuthSession.BootstrapRestores` | src/contexts/AuthContext.tsx:38-46 | with a stored token and a successful `/me`, the session is that token and that user, and the header is "Bearer " + token |
| `AuthSession.BootstrapFailureLogsOut` | src/contexts/AuthContext.tsx:47-51 | with a stored token and a failed `/me`, token and user are null, the header is removed and the stored entry deleted |
| `AuthSession.SegmentsSpellPath` | src/contexts/AuthContext.tsx:64-66 | the segments assumed for each redirect target are exactly the pieces of the path passed to `router.replace` |
| `AuthSession.GateStable` | src/contexts/AuthContext.tsx:61-67 | following a redirect leads to a location where the gate asks for no further redirect |
| `AuthSession.FailedBootstrapGoesToLogin` | src/contexts/AuthContext.tsx:47-66 | after a bootstrap whose `/me` fails, every screen outside the auth group redirects to login |
| `AuthSession.SignInLeavesAuthGroup` | src/contexts/AuthContext.tsx:63-76 | after a successful sign-in with a non-empty token, once loaded, an auth screen redirects to the tabs |
| `AuthSession.ApplyKeepsCoherent` | src/contexts/AuthContext.tsx:38-93 | every transition keeps a token in state equal to the one in the `Authorization` header and in the secure store |
| `AuthSession.ReplayKeepsCoherent` | src/contexts/AuthContext.tsx:28-93 | from any coherent state (the first render is one), any sequence of transitions keeps the session coherent |
| `AuthSession.NoRedirectBeforeBootstrap` | src/contexts/AuthContext.tsx:30-59 | until a bootstrap has run, the controller stays loading and the gate never redirects |
| `AuthSession.LoadedStaysLoaded` | src/contexts/AuthContext.tsx:53 | once loading is false, no transition sets it back |
| `AuthSession.AuthProvider.constructor` | src/contexts/AuthContext.tsx:28-30 | the initial state is token null, user null, loading true |
| `AuthSession.AuthProvider.LoadData` | src/contexts/AuthContext.tsx:35-54 | updates the fields step by step to the state given by `AfterBootstrap` |
| `AuthSession.AuthProvider.Login` | src/contexts/AuthContext.tsx:70-77 | updates the fields to the state given by `AfterSignIn` and returns whether the promise resolves |
| `AuthSession.AuthProvider.Register` | src/contexts/AuthContext.tsx:79-86 | updates the fields to the state given by `AfterSignIn` and returns whether the promise resolves |
| `AuthSession.AuthProvider.Logout` | src/contexts/AuthContext.tsx:88-93 | updates the fields to the state given by `AfterLogout` |

## Left out

- bcrypt internals (`genSalt`, `hash`): a foreign library with random salts. It is a parameter, and the only claim is that the stored value is what it returned.
- Prisma, Express routing, `/`, `/test-db` and `app.listen`: I/O and database plumbing. Only the in-memory semantics of `findFirst` (first match in sequence order) and `create` (append) are kept.
- Prisma rows have no defined order without `orderBy`. The model fixes sequence order, which decides only which field the 409 message names.
- Non-string JSON values in the request body (numbers, booleans): these are not modelled. A field is either absent or a string.
- Other non-string JSON values in client replies are not modelled: a number or boolean `token`, and a `user` that is neither an object nor `null`. The token is missing, `null` or a string; `user` is missing, `null` or an account.
- A successful `/me` reply whose body is `null` or not an object is not modelled: `setUser(response.data)` would then give a token with no user. A successful `/me` always carries an account.
- Console logging (`console.error` in the handler's `catch` and in `loadData`'s `catch`): output only, with no effect on the state.
- HTTP and the secure store as transport: replies are parameters. Every secure-store call is assumed to succeed, except the write of a missing or `null` token. A rejected `getItemAsync` would leave `loading` true, and the model does not capture this.
- Async ordering and races are not modelled: the un-awaited `logout()` inside `loadData`, a stale `/me` reply arriving after logout, and concurrent registrations. Every transition is one atomic step.
- The `/sessions` and `/me` endpoints the client calls are not defined in the server file, so they are not modelled on the server side. The client's expectations of them are taken as the `Reply` parameters.
- Presentation components (screens, cards, theme): UI layout with no stateable behaviour.
- Session-token signing and expiry, password reset, forgot-password, federated sign-in and rate limiting: the shown code has none of them.
- Case-folding of e-mail and username: the source compares exactly, and so does the model.
