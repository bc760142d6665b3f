# Ticket backend: authentication gate and ticket state machine

A model of the core of a small ticket-validation backend. Users with a fixed
role log in with a name and a password and receive a bearer token. Two
role-gated routes work on a tickets collection: a "validator" registers a
ticket code (`add_code`), and an "authenticator" marks a code validated
(`validate_code`). Every route except login first resolves the bearer token
to a stored user (`get_current_user`).

- `http.dfy` (module `Http`): the HTTP errors the routes raise (401, 403,
  400 with their detail texts) and the `Result` every operation returns.
- `auth.dfy` (module `Auth`): `authenticate_user`, `create_access_token`,
  `login` and `get_current_user` as functions over a snapshot of the users
  collection. bcrypt's `verify` and the JWT library's `encode` and `decode`
  are function parameters about which nothing is assumed; the clock is the
  integer parameter `now`, in seconds.
- `tickets.dfy` (module `Tickets`): each route's effect as a pure step over
  the tickets collection, modelled as a map from code to validated status,
  and lemmas about any sequence of calls.
- `backend.dfy` (module `Backend`): the database as a class `Store` whose
  `tickets` map the two route methods update in place. Each method is proved
  to do exactly what the matching step function says, so what `Tickets`
  proves about one step holds of each call on the store.

Points where the behaviour is easy to misread:

- A registered ticket keeps the `validated_status` of the request body
  (api/main.py:91). The field defaults to false only when the body omits it
  (models/ticket.py:7). A validator can therefore register a ticket that is
  already validated.
- An unknown code in `validate_code` is an ordinary 200 reply "Invalid code"
  (api/main.py:99-100), not an error status.
- A wrong password or an unknown name at login is a 400 (api/main.py:80-81).

`create_access_token` updates a copy of its argument (api/main.py:45-47). In
the model, payloads are values, so the caller's claims cannot change.

## Model

| member | source | states |
|---|---|---|
| `Auth.AuthenticateUser` | api/main.py:53-57 | a user is returned exactly when the name is stored and the password verifies against its digest, and it is the stored user |
| `Auth.CreateAccessToken` | api/main.py:44-47 | the payload is the caller's claims plus `exp`, other claims unchanged; `exp` is `now` plus the given lifetime, or plus 30 minutes when the lifetime is missing or zero |
| `Auth.LoginClaims` | api/main.py:82 | the login payload holds exactly `sub` = the user's name, `role` = the stored role and `exp` = `now` + 30 minutes |
| `Auth.Login` | api/main.py:77-83 | login succeeds exactly when authentication does; failure is the 400 "Incorrect username or password" with no token; success returns the token signed over the login payload, type "bearer" and the stored role |
| `Auth.GetCurrentUser` | api/main.py:59-70 | an undecodable token is 401 "Invalid token"; a token that decodes but has no string `sub`, or names no stored user, is 401 "Invalid credentials"; a user is returned exactly when the token decodes, has a string `sub` and that name is stored, and it is the stored record |
| `Auth.LoginThenAuthenticate` | api/main.py:59-83 | a token issued by login, once the token library accepts it, authenticates the user who logged in, whose stored role equals the role login returned |
| `Auth.GateIgnoresRoleClaim` | api/main.py:59-68 | changing only the token's `role` claim never changes what the gate returns |
| `Auth.GateUsesStoredRole` | api/main.py:65-68 | after the stored role changes, the gate reports the new role for a token issued before |
| `Tickets.AddCodeStep` | api/main.py:85-92 | any role but "validator" gets 403 and the table is unchanged; a stored code gets "Duplicate code" and the table is unchanged; otherwise exactly one entry is added, for that code, with the request's status, and no existing entry changes |
| `Tickets.ValidateCodeStep` | api/main.py:94-104 | any role but "authenticator" gets 403 with no change; "Invalid code", "Code already validated before" and "Code validated successfully" each happen exactly in their case; the set of codes never changes, only the named code can change, and only from false to true |
| `Tickets.Replay` | api/main.py:85-104 | a sequence of route calls gets exactly one reply per call |
| `Tickets.ReplayNeverUnvalidates` | api/main.py:101-104 | over any sequence of calls, a stored code stays stored and a validated code stays validated |
| `Tickets.ReplayCountsAdds` | api/main.py:89-92 | over any sequential sequence of calls, the number of stored tickets grows by exactly the number of "Code added successfully" replies, so no code is stored twice while calls run one after another |
| `Tickets.ReplayCodesComeFromAdds` | api/main.py:85-92 | every code stored after a sequence of calls was stored before it or was added by a validator's call that answered "Code added successfully" |
| `Tickets.ValidateTwice` | api/main.py:98-104 | on a stored unvalidated code, validating twice answers success and then "already validated", and the code ends validated |
| `Tickets.AddTwice` | api/main.py:89-92 | adding one code twice answers success then "Duplicate code", leaves one entry more than before, and keeps the first request's status |
| `Tickets.UnknownRoleDenied` | api/main.py:86-97 | a role that is neither "validator" nor "authenticator" gets 403 from both routes and changes nothing |
| `Tickets.Ticket123Scenario` | api/main.py:85-104 | register TICKET123, validate it, validate it again, validate NOPE: added, validated, already validated, invalid, and TICKET123 ends validated |
| `Backend.Store.constructor` | api/main.py:25-27 | the store starts with the given users and tickets collections |
| `Backend.Store.AddCode` | api/main.py:85-92 | the reply and the new tickets map are exactly those of `AddCodeStep` on the old map and the user's stored role |
| `Backend.Store.ValidateCode` | api/main.py:94-104 | the reply and the new tickets map are exactly those of `ValidateCodeStep` on the old map and the user's stored role |
| `Backend.Store.PostAddCode` | api/main.py:85-92 | a token the gate rejects returns the gate's 401 with the tickets untouched; otherwise the route acts as `AddCodeStep` with the stored role of the token's user |
| `Backend.Store.PostValidateCode` | api/main.py:94-104 | a token the gate rejects returns the gate's 401 with the tickets untouched; otherwise the route acts as `ValidateCodeStep` with the stored role of the token's user |
| `Backend.RegisterThenValidateTwice` | api/main.py:85-104 | on a live store, registering a fresh unvalidated code and validating it twice answers added, validated, already validated, only that code is added, as validated, and the users collection is untouched |

## Left out

- bcrypt hashing and verification (api/main.py:30, 38-42): a foreign library with random salts; `verify` is a parameter and `get_password_hash` is not modelled.
- JWT signing, decoding, signature and expiry checks (api/main.py:48, 61): a foreign library; `encode` and `decode` are parameters, so token expiry is decided inside `decode` and is not modelled.
- Time arithmetic is in whole seconds; `datetime` microseconds, which the JWT library drops when it encodes `exp`, are not modelled.
- A non-string `sub` claim is treated as a lookup miss (401 "Invalid credentials"); database query operators inside a claim are not modelled.
- The users collection is a map keyed by name, so a name is unique; duplicate user documents, which `find_one` would resolve by taking the first, are not modelled.
- The database client, environment loading and connection setup (api/main.py:17-27, config/database.py): configuration and I/O.
- Request parsing: FastAPI's form and body handling, including the default `validated_status` of false when the body omits it (models/ticket.py:7); the model receives the parsed ticket.
- The `home` route (api/main.py:73-75) and the routing itself: glue.
- models/user.py: a shape the code never uses; users are raw documents.
- Concurrent requests: each route call is one atomic step, so the read-then-write race of two simultaneous `validate_code` calls on one code is not modelled.
- The check-then-insert race of `add_code` (api/main.py:89-91): two simultaneous calls with the same fresh code can both pass the lookup, both insert and both answer "Code added successfully", since no unique index exists on `code`. The tickets collection is a map from code to status, so duplicate ticket documents cannot be represented; uniqueness of codes holds only for calls made one after another.
