# Training-session backend: access rules and table updates

This project models the route handlers of a small Express backend for training
sessions (`index.js`). Users sign up and log in. A *formateur* (instructor)
creates, modifies and deletes their own sessions. An *etudiant* (student) signs
an *émargement* (attendance record) for a session. The model covers what each
handler decides: which status code it returns, the order of its checks, and how
it changes the `users`, `sessions` and `emargements` tables.

Layout:

- `validation.dfy` (module `Validation`): the zod schemas as field rules, the list of violated fields, and the typed request bodies. The email and date format checks of zod are a parameter `fmt: Formats` (two predicates on strings), so every rule about validity holds for whatever strings those checks accept.
- `hasher.dfy`, `tokens.dfy`: bcrypt and JWT as abstract functions. `compare(p, hash(q, salt))` holds exactly when `p == q`. A token is its payload `{id, role}` signed with the server key.
- `store.dfy` (module `Store`): the three tables as maps from primary key to row, plus one auto-increment counter per table standing in for `insertId`.
  - `Invariant` holds the table invariants: unique emails, known roles, at most one record per (etudiant, session) pair, counters above every key.
  - `Select` is a `WHERE` query.
  - `Join` is the `INNER JOIN` of the attendance listing.
- `handlers.dfy` (module `Handlers`): one pure step function per endpoint, from (tables, caller, body, fault) to (tables, response). The contracts state the status codes, the check order, that a rejected request writes nothing, the new table contents, and that the invariant is preserved.
- `server.dfy` (module `Server`): class `Backend` holds the mutable tables. It has one method per endpoint, written as the handler is, with early returns. Each method is proved equal to its step function.
- `scenarios.dfy` (module `Scenarios`): properties that span several requests. Examples are signing up then logging in, registering twice, and any sequence of requests keeping the invariant.

Parameters stand in for the effects:

- The caller is `Option<Identity>`: the identity `checkAuth` attaches to the request, or none.
- The bcrypt salt is a parameter.
- The JWT key is a constructor argument.
- Failures of the store or of a library call are a `Fault` parameter. `FailAt(k)` means the k-th fallible call of the handler throws (counting from 0).

Status codes are the ones the code sends: a wrong role, a non-owner, a duplicate email and a duplicate attendance record all get 401.

## Model

| member | source | states |
|---|---|---|
| Validation.Violations | index.js:22-27 | a field is reported exactly when it is declared in the schema and its value (missing counts) breaks its rule |
| Validation.DecodeSignup | index.js:22-27 | a raw signup body parses exactly when no rule is violated; the result carries the body's own field values and passes the schema |
| Validation.DecodeLogin | index.js:73-76 | the same for the login body |
| Validation.DecodeSession | index.js:128-131 | the same for the session body (the create and modify schemas are identical) |
| Validation.DecodeAttendance | index.js:313-315 | the same for the attendance body |
| Validation.SignupRules | index.js:22-27 | a signup body is valid exactly when name has at least 2 characters, the email passes the email format check, password has at least 8 characters and role at least 2 |
| Validation.LoginRules | index.js:73-76 | a login body is valid exactly when the email passes the email format check and the password has at least 8 characters |
| Validation.SessionRules | index.js:201-204 | a session body is valid exactly when the title has at least 2 characters and the date passes the date format check |
| Validation.AttendanceRules | index.js:313-315 | an attendance body passes exactly when `presence` is present and boolean |
| Validation.SignupPasswordPassesLogin | index.js:73-76 | a valid signup body's email and password make a valid login body |
| Hasher.Hash | index.js:57 | the digest compares true against the hashed password and against no other, with cost factor 10 |
| Hasher.CompareHash | index.js:91-94 | compare(p, hash(q, salt)) holds exactly when p == q |
| Tokens.Sign | index.js:101-102 | the token verifies as exactly its payload, and only under the key it was signed with |
| Tokens.Authenticate | index.js:117-121 | no bearer token gives no identity; a token signed with the server's key for payload p gives exactly p; a token signed with any other key gives no identity |
| Tokens.NoImpersonation | index.js:101-102 | a token issued for A under the server's key authenticates as A; one signed for A with another key authenticates as nobody |
| Store.Select | index.js:40-43 | a query returns exactly the keys whose rows match, in ascending order |
| Store.UsersWithEmailMeans | index.js:82-86 | the email lookup is non-empty exactly when some user has the email, and returns exactly those users |
| Store.RecordsOfMeans | index.js:348-352 | the duplicate lookup is non-empty exactly when the (etudiant, session) pair already has a record |
| Store.AllSessions | index.js:163 | every stored session appears exactly once with its row, by ascending id |
| Store.Join | index.js:415 | a joined row appears exactly when one of the listed records has an existing user, and is built from that record and that user; records of distinct students give rows of distinct students |
| Store.Attendees | index.js:414-419 | the listing holds exactly the joined rows of the records whose session_id matches, and no student appears twice |
| Handlers.Signup | index.js:28-70 | an unknown role returns 400; a throwing lookup returns 500; a taken email returns 401; a throwing hash or insert returns 500; otherwise exactly one user (name, email, hashed password, role) is added under a fresh id that is returned; nothing changes unless 200; emails stay unique |
| Handlers.Login | index.js:77-114 | a throwing lookup, compare or sign returns 500 with no token; unknown email or wrong password returns 401; the right password returns a token whose payload is exactly that user's id and role; 200 only in that case |
| Handlers.Protected | index.js:117-121 | 200 exactly for an authenticated caller, 401 otherwise |
| Handlers.CreateSession | index.js:132-157 | a non-formateur gets 401 with no insert, whatever the tables; a throwing INSERT gives 500 with no insert; otherwise a formateur gets a new session owned by the caller under a fresh id, and the table grows by exactly one |
| Handlers.ListSessions | index.js:160-172 | 200 with every stored session unless the query throws |
| Handlers.GetSession | index.js:175-198 | a throwing lookup gives 500; otherwise 404 exactly when the session is absent, and 200 with the stored row when it is present |
| Handlers.OwnerGuard | index.js:212-233 | the checks run in order: role (401, before any lookup), lookup failure (500), absence (404, before ownership), another owner (401); they all pass only for the owning formateur |
| Handlers.UpdateSession | index.js:205-254 | a request the guard rejects gets the guard's status and writes nothing; a throwing UPDATE gives 500 and writes nothing; 200 only for the owner; then only the target's title and date change, keeping its id and owner |
| Handlers.DeleteSession | index.js:257-305 | a request the guard rejects gets the guard's status and writes nothing; a throwing DELETE gives 500 and writes nothing; 200 only for the owner; then only the target session is removed |
| Handlers.PostEmargement | index.js:316-376 | non-etudiant 401, then a throwing session lookup 500, absent session 404, a throwing duplicate lookup 500, existing record 401, a throwing INSERT 500, each with no insert; otherwise exactly one record (session, etudiant, presence) is inserted; one record per pair is preserved |
| Handlers.PostEmargementAsWritten | index.js:347-368 | when an etudiant posts to an existing session and the duplicate lookup throws, the response is 500 and the record is inserted anyway; in every other case it behaves like PostEmargement |
| Handlers.ListEmargements | index.js:378-424 | the formateur guard's status on rejection; a throwing join gives 500; 200 only for the owner, with exactly the joined attendance rows of that session |
| Scenarios.SignupThenLogin | index.js:56-102 | after a successful signup, logging in with the same email and password returns a token for the new id and role |
| Scenarios.RegisterTwice | index.js:346-370 | the first attendance for a pair succeeds, and a second one for the same pair gets 401 and changes nothing |
| Scenarios.OnlyOwnerWrites | index.js:263-284 | PUT or DELETE changes the tables only when the caller is the formateur who owns the session |
| Scenarios.OnlyTargetChanges | index.js:242-247 | PUT and DELETE leave users, emargements and every other session untouched |
| Scenarios.Run | index.js:28-376 | any sequence of writing requests, with the corrected attendance handler, keeps the invariant: unique emails, one record per pair; as written, a failed duplicate lookup can store a second record (see Findings) |
| Scenarios.UsersOnlyGrow | index.js:58-61 | no request removes or changes an existing user |
| Scenarios.FailedDuplicateLookupInsertsDuplicate | index.js:357-360 | with a record already stored, a throwing duplicate lookup makes the handler as written answer 500 and store a second record for the same pair |
| Scenarios.CorrectedKeepsOneRecordPerPair | index.js:346-370 | the corrected handler keeps one record per pair whichever call throws, and writes nothing unless it answers 200 |
| Server.Backend.constructor | index.js:15 | the server starts over the tables the database holds at startup, which satisfy the invariant |
| Server.Backend.Signup | index.js:28-70 | the new tables and the response are those of Handlers.Signup; the invariant is kept |
| Server.Backend.Login | index.js:77-114 | the response is that of Handlers.Login; the tables are only read |
| Server.Backend.Protected | index.js:117-121 | the response is that of Handlers.Protected |
| Server.Backend.CreateSession | index.js:132-157 | the new tables and the response are those of Handlers.CreateSession |
| Server.Backend.ListSessions | index.js:160-172 | the response is that of Handlers.ListSessions |
| Server.Backend.GetSession | index.js:175-198 | the response is that of Handlers.GetSession |
| Server.Backend.UpdateSession | index.js:205-254 | the new tables and the response are those of Handlers.UpdateSession |
| Server.Backend.DeleteSession | index.js:257-305 | the new tables and the response are those of Handlers.DeleteSession |
| Server.Backend.PostEmargement | index.js:316-376 | the new tables and the response are those of the corrected Handlers.PostEmargement |
| Server.Backend.ListEmargements | index.js:378-424 | the response is that of Handlers.ListEmargements |

## Left out

- Express plumbing: routing, `express.json()`, `logger` and `app.listen` (index.js:429-431). This is framework I/O.
- The database connection (`connectDb`, from `lib.js`) and the SQL text. The tables are in-memory maps. `lib.js` is not part of this model.
- The internals of bcrypt and jsonwebtoken. The hash and the token are abstract, as described above.
- Hasher.Hash, Hasher.CompareHash: bcrypt uses only the first 72 bytes of a password, so `compare(p, hash(q))` also holds when p and q differ only after their first 72 bytes. The model compares whole passwords, so "a wrong password gets 401" holds there for every input.
- `validateData` and `checkAuth` live in `middleware.js`, which is not part of this model. Only their contract is modelled:
  - a handler runs only with a body that passes its schema (the `requires Valid*` clauses);
  - a protected route runs only for a resolved identity;
  - a caller with no identity is refused with 401.
- Validation.DecodeSignup, Validation.DecodeLogin, Validation.DecodeSession: which strings zod's `email()` and `date()` accept is library behaviour. It is left open as the `Formats` parameter, and no property depends on a particular format.
- zod measures `min` lengths in UTF-16 code units. The model counts the characters of a Dafny `string`.
- zod's stripping of undeclared fields is not modelled.
- The stray identifier `az` at index.js:205 would throw a ReferenceError before any check of the PUT handler runs, so the handler's promise is rejected. What the client then sees depends on the Express and Node versions, which are not part of this model: the rejected promise may be ignored (no response), may end the process as an unhandled rejection, or may reach Express's error handler (a 500). The model describes the logic written below it.
- Store.UsersWithEmail: the email lookup compares strings exactly. MySQL's default collation compares case-insensitively and ignores trailing spaces, so it can find a user the model does not. Store.UniqueEmails states uniqueness under exact comparison for the same reason. The collation is a database setting outside this model.
- After the fall-through at index.js:357-360, the `res.json` at index.js:370 throws because the response was already sent, and so does the one at index.js:373 in its catch block. The handler's promise is then rejected. Whether that is ignored, ends the process or reaches Express's error handler depends on the Express and Node versions, which are not part of this model. The model records only the 500 response and the inserted row.
- Races between concurrent duplicate submissions (email, attendance) are not modelled. The model is sequential.
- Response texts are not modelled. Every failure carries one `ErrorMessage` payload. The source mixes plain-text and JSON bodies.
- Row order: queries without `ORDER BY` have no defined order. The model returns rows by ascending primary key.
- Foreign keys are not modelled. The schema is not part of this model, so deleting a session leaves its attendance records in place, as the DELETE statement itself does.
- `parseInt` of very long digit strings loses precision. Route ids are modelled as natural numbers.
- The source writes `presence` into a column named `status`. The listing returns that column as `status`.

## Findings

| source | as written | input that shows it | evidently intended | confidence | as-written member | corrected member |
|---|---|---|---|---|---|---|
| index.js:357-360 | the catch block of the duplicate-attendance lookup sends a 500 but does not `return`, so the INSERT at index.js:364-368 still runs | student 2 already has a record for session 0, and the duplicate lookup throws: the client gets 500 and a second record for (2, 0) is stored | return after the 500, like every other catch block of the handler, so nothing is inserted | not executed; medium | Handlers.PostEmargementAsWritten, Scenarios.FailedDuplicateLookupInsertsDuplicate | Handlers.PostEmargement, Scenarios.CorrectedKeepsOneRecordPerPair |
