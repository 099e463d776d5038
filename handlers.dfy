/** The decisions of the route handlers of index.js, one pure step function per
    endpoint: given the tables before the request, the caller's identity (as
    checkAuth resolved it), the validated body and which store call throws, what
    the response is and what the tables are afterwards.  The contracts state the
    status each endpoint returns, the order in which its checks run, and how the
    tables change. */
module Handlers {
  import opened Wrappers
  import opened Validation
  import opened Hasher
  import opened Tokens
  import opened Store

  const OK := 200
  const BAD_REQUEST := 400
  const UNAUTHORIZED := 401
  const NOT_FOUND := 404
  const SERVER_ERROR := 500

  /** Which fallible store or library call of a handler throws: FailAt(k) makes
      the k-th call the handler makes (counting from 0) throw, and every other
      call succeed.  The catch blocks turn a throw into a 500. */
  datatype Fault = NoFault | FailAt(call: nat)

  /** The first n calls of the handler succeed. */
  predicate Survives(f: Fault, n: nat) {
    f.NoFault? || f.call >= n
  }

  datatype Payload =
    | Empty
    | ErrorMessage
    | CreatedUser(id: Id, name: string, email: string, role: string)
    | IssuedToken(token: Token)
    | SessionFound(row: SessionRow)
    | SessionList(rows: seq<SessionRow>)
    | Registered(id: Id, record: Emargement)
    | AttendeeList(attendees: seq<Attendee>)

  datatype Response = Response(status: int, body: Payload)

  datatype Outcome = Outcome(db: Db, response: Response)

  function Failure(status: int): Response {
    Response(status, ErrorMessage)
  }

  /** A rejected request: the tables are left as they were. */
  function Reject(db: Db, status: int): Outcome {
    Outcome(db, Failure(status))
  }

  /** The caller is authenticated and has the role. */
  predicate HasRole(caller: Option<Identity>, role: string) {
    caller.Some? && caller.value.role == role
  }

  /** The tables with one more attendance record, under a fresh id. */
  function WithRecord(db: Db, e: Emargement): Db {
    db.(emargements := db.emargements[db.nextEmargement := e], nextEmargement := db.nextEmargement + 1)
  }

  // ----- Users -----

  /** POST /auth/signup. */
  function Signup(db: Db, b: SignupBody, salt: Salt, fault: Fault, ghost fmt: Formats): (o: Outcome)
    requires Invariant(db) && ValidSignup(b, fmt)
    ensures Invariant(o.db)
    ensures o.response.status in {OK, BAD_REQUEST, UNAUTHORIZED, SERVER_ERROR}
    ensures o.response.status != OK ==> o.db == db
    ensures o.response.status == BAD_REQUEST <==> !KnownRole(b.role)
    ensures KnownRole(b.role) && !Survives(fault, 1) ==> o == Reject(db, SERVER_ERROR)
    ensures KnownRole(b.role) && Survives(fault, 1) && EmailTaken(db.users, b.email) ==> o == Reject(db, UNAUTHORIZED)
    ensures (KnownRole(b.role) && !EmailTaken(db.users, b.email) && Survives(fault, 1)
             && !Survives(fault, 3)) ==> o == Reject(db, SERVER_ERROR)
    ensures o.response.status == OK <==> KnownRole(b.role) && !EmailTaken(db.users, b.email) && Survives(fault, 3)
    ensures o.response.status == OK ==>
              && db.nextUser !in db.users
              && o.db == db.(users := db.users[db.nextUser := User(b.name, b.email, Hash(b.password, salt), b.role)],
                             nextUser := db.nextUser + 1)
              && o.response.body == CreatedUser(db.nextUser, b.name, b.email, b.role)
  {
    if b.role != FORMATEUR && b.role != ETUDIANT then Reject(db, BAD_REQUEST)
    else if fault == FailAt(0) then Reject(db, SERVER_ERROR)
    else
      UsersWithEmailMeans(db, b.email);
      if |UsersWithEmail(db, b.email)| > 0 then Reject(db, UNAUTHORIZED)
      else if fault == FailAt(1) || fault == FailAt(2) then Reject(db, SERVER_ERROR)
      else
        var id := db.nextUser;
        var user := User(b.name, b.email, Hash(b.password, salt), b.role);
        Outcome(db.(users := db.users[id := user], nextUser := id + 1),
                Response(OK, CreatedUser(id, b.name, b.email, b.role)))
  }

  /** POST /auth/login: the calls are the user lookup, bcrypt.compare and jwt.sign. */
  function Login(db: Db, key: string, b: LoginBody, fault: Fault, ghost fmt: Formats): (r: Response)
    requires Invariant(db) && ValidLogin(b, fmt)
    ensures r.status in {OK, UNAUTHORIZED, SERVER_ERROR}
    ensures !Survives(fault, 1) ==> r == Failure(SERVER_ERROR)
    ensures r.status == OK ==> Survives(fault, 3)
    ensures Survives(fault, 1) && !EmailTaken(db.users, b.email) ==> r == Failure(UNAUTHORIZED)
    ensures forall id :: id in db.users && db.users[id].email == b.email ==>
              && (Survives(fault, 1) && !Survives(fault, 2) ==> r == Failure(SERVER_ERROR))
              && (Survives(fault, 2) && !Compare(b.password, db.users[id].password) ==> r == Failure(UNAUTHORIZED))
              && (Survives(fault, 2) && !Survives(fault, 3) && Compare(b.password, db.users[id].password) ==>
                    r == Failure(SERVER_ERROR))
              && (Survives(fault, 3) && Compare(b.password, db.users[id].password) ==>
                    r == Response(OK, IssuedToken(Sign(key, Identity(id, db.users[id].role)))))
    ensures r.status == OK ==>
              exists id :: id in db.users && db.users[id].email == b.email
                && Compare(b.password, db.users[id].password)
                && r.body == IssuedToken(Sign(key, Identity(id, db.users[id].role)))
    ensures r.status == OK ==> r.body.IssuedToken? && KnownRole(r.body.token.payload.role)
  {
    if fault == FailAt(0) then Failure(SERVER_ERROR)
    else
      UsersWithEmailMeans(db, b.email);
      var rows := UsersWithEmail(db, b.email);
      if |rows| == 0 then Failure(UNAUTHORIZED)
      else
        assert rows[0] in rows;
        var user := db.users[rows[0]];
        if fault == FailAt(1) then Failure(SERVER_ERROR)
        else if !Compare(b.password, user.password) then Failure(UNAUTHORIZED)
        else if fault == FailAt(2) then Failure(SERVER_ERROR)
        else Response(OK, IssuedToken(Sign(key, Identity(rows[0], user.role))))
  }

  /** GET /protected: the handler answers 200 once checkAuth let the request through. */
  function Protected(caller: Option<Identity>): (r: Response)
    ensures r.status == OK <==> caller.Some?
    ensures r.status != OK ==> r == Failure(UNAUTHORIZED)
  {
    if caller.None? then Failure(UNAUTHORIZED) else Response(OK, Empty)
  }

  // ----- Sessions -----

  /** POST /sessions. */
  function CreateSession(db: Db, caller: Option<Identity>, b: SessionBody, fault: Fault, ghost fmt: Formats): (o: Outcome)
    requires Invariant(db) && ValidSession(b, fmt)
    ensures Invariant(o.db)
    ensures o.response.status != OK ==> o.db == db
    ensures !HasRole(caller, FORMATEUR) ==> o == Reject(db, UNAUTHORIZED)
    ensures HasRole(caller, FORMATEUR) && !Survives(fault, 1) ==> o == Reject(db, SERVER_ERROR)
    ensures o.response.status == OK <==> HasRole(caller, FORMATEUR) && Survives(fault, 1)
    ensures o.response.status == OK ==>
              (var id, s := db.nextSession, Session(b.title, b.date, caller.value.id);
               && id !in db.sessions
               && o.db == db.(sessions := db.sessions[id := s], nextSession := id + 1)
               && |o.db.sessions| == |db.sessions| + 1
               && o.response.body == SessionFound(SessionRow(id, s)))
  {
    if !HasRole(caller, FORMATEUR) then Reject(db, UNAUTHORIZED)
    else if fault == FailAt(0) then Reject(db, SERVER_ERROR)
    else
      var id := db.nextSession;
      var s := Session(b.title, b.date, caller.value.id);
      Outcome(db.(sessions := db.sessions[id := s], nextSession := id + 1), Response(OK, SessionFound(SessionRow(id, s))))
  }

  /** GET /sessions. */
  function ListSessions(db: Db, fault: Fault): (r: Response)
    requires Invariant(db)
    ensures r.status == OK <==> Survives(fault, 1)
    ensures r.status != OK ==> r == Failure(SERVER_ERROR)
    ensures r.status == OK ==> r.body == SessionList(AllSessions(db))
  {
    if fault == FailAt(0) then Failure(SERVER_ERROR) else Response(OK, SessionList(AllSessions(db)))
  }

  /** GET /sessions/:id. */
  function GetSession(db: Db, id: Id, fault: Fault): (r: Response)
    ensures r.status in {OK, NOT_FOUND, SERVER_ERROR}
    ensures Survives(fault, 1) ==> (r.status == NOT_FOUND <==> id !in db.sessions)
    ensures r.status == OK ==> id in db.sessions && r.body == SessionFound(SessionRow(id, db.sessions[id]))
    ensures Survives(fault, 1) && id in db.sessions ==> r == Response(OK, SessionFound(SessionRow(id, db.sessions[id])))
    ensures !Survives(fault, 1) ==> r == Failure(SERVER_ERROR)
  {
    if fault == FailAt(0) then Failure(SERVER_ERROR)
    else if id !in db.sessions then Failure(NOT_FOUND)
    else Response(OK, SessionFound(SessionRow(id, db.sessions[id])))
  }

  /** The checks guarding a formateur's access to one of their sessions
      (PUT and DELETE /sessions/:id, GET /sessions/:id/emargement), in the
      order the handlers run them: the role, before any lookup; then the
      lookup, which may throw; then existence; then ownership.  The status of
      the first failing check, or None when all pass. */
  function OwnerGuard(db: Db, caller: Option<Identity>, id: Id, fault: Fault): (rejection: Option<int>)
    ensures rejection.None? <==>
              HasRole(caller, FORMATEUR) && Survives(fault, 1) && id in db.sessions
              && db.sessions[id].formateurId == caller.value.id
    ensures !HasRole(caller, FORMATEUR) ==> rejection == Some(UNAUTHORIZED)
    ensures HasRole(caller, FORMATEUR) && !Survives(fault, 1) ==> rejection == Some(SERVER_ERROR)
    ensures HasRole(caller, FORMATEUR) && Survives(fault, 1) && id !in db.sessions ==> rejection == Some(NOT_FOUND)
    ensures (HasRole(caller, FORMATEUR) && Survives(fault, 1) && id in db.sessions
             && db.sessions[id].formateurId != caller.value.id) ==> rejection == Some(UNAUTHORIZED)
  {
    if !HasRole(caller, FORMATEUR) then Some(UNAUTHORIZED)
    else if fault == FailAt(0) then Some(SERVER_ERROR)
    else if id !in db.sessions then Some(NOT_FOUND)
    else if db.sessions[id].formateurId != caller.value.id then Some(UNAUTHORIZED)
    else None
  }

  /** PUT /sessions/:id: the calls are the ownership lookup and the UPDATE. */
  function UpdateSession(db: Db, caller: Option<Identity>, id: Id, b: SessionBody, fault: Fault, ghost fmt: Formats): (o: Outcome)
    requires Invariant(db) && ValidSession(b, fmt)
    ensures Invariant(o.db)
    ensures o.response.status != OK ==> o.db == db
    ensures OwnerGuard(db, caller, id, fault).Some? ==> o == Reject(db, OwnerGuard(db, caller, id, fault).value)
    ensures OwnerGuard(db, caller, id, fault).None? && !Survives(fault, 2) ==> o == Reject(db, SERVER_ERROR)
    ensures o.response.status == OK <==> OwnerGuard(db, caller, id, fault).None? && Survives(fault, 2)
    ensures o.response.status == OK ==>
              && o.db == db.(sessions := db.sessions[id := Session(b.title, b.date, caller.value.id)])
              && o.response.body == Empty
  {
    if !HasRole(caller, FORMATEUR) then Reject(db, UNAUTHORIZED)
    else if fault == FailAt(0) then Reject(db, SERVER_ERROR)
    else if id !in db.sessions then Reject(db, NOT_FOUND)
    else if db.sessions[id].formateurId != caller.value.id then Reject(db, UNAUTHORIZED)
    else if fault == FailAt(1) then Reject(db, SERVER_ERROR)
    else
      var s := db.sessions[id];
      Outcome(db.(sessions := db.sessions[id := s.(title := b.title, date := b.date)]), Response(OK, Empty))
  }

  /** DELETE /sessions/:id: the calls are the ownership lookup and the DELETE. */
  function DeleteSession(db: Db, caller: Option<Identity>, id: Id, fault: Fault): (o: Outcome)
    requires Invariant(db)
    ensures Invariant(o.db)
    ensures o.response.status != OK ==> o.db == db
    ensures OwnerGuard(db, caller, id, fault).Some? ==> o == Reject(db, OwnerGuard(db, caller, id, fault).value)
    ensures OwnerGuard(db, caller, id, fault).None? && !Survives(fault, 2) ==> o == Reject(db, SERVER_ERROR)
    ensures o.response.status == OK <==> OwnerGuard(db, caller, id, fault).None? && Survives(fault, 2)
    ensures o.response.status == OK ==>
              && o.db == db.(sessions := db.sessions - {id})
              && |o.db.sessions| == |db.sessions| - 1
              && o.response.body == Empty
  {
    if !HasRole(caller, FORMATEUR) then Reject(db, UNAUTHORIZED)
    else if fault == FailAt(0) then Reject(db, SERVER_ERROR)
    else if id !in db.sessions then Reject(db, NOT_FOUND)
    else if db.sessions[id].formateurId != caller.value.id then Reject(db, UNAUTHORIZED)
    else if fault == FailAt(1) then Reject(db, SERVER_ERROR)
    else Outcome(db.(sessions := db.sessions - {id}), Response(OK, Empty))
  }

  // ----- Attendance -----

  /** POST /sessions/:id/emargement, with the failed duplicate lookup
      rejecting the request like every other failed lookup does.  The calls
      are the session lookup, the duplicate lookup and the INSERT. */
  function PostEmargement(db: Db, caller: Option<Identity>, id: Id, b: AttendanceBody, fault: Fault, ghost fmt: Formats): (o: Outcome)
    requires Invariant(db) && ValidAttendance(b, fmt)
    ensures Invariant(o.db)
    ensures o.response.status != OK ==> o.db == db
    ensures !HasRole(caller, ETUDIANT) ==> o == Reject(db, UNAUTHORIZED)
    ensures HasRole(caller, ETUDIANT) && !Survives(fault, 1) ==> o == Reject(db, SERVER_ERROR)
    ensures HasRole(caller, ETUDIANT) && Survives(fault, 1) && id !in db.sessions ==> o == Reject(db, NOT_FOUND)
    ensures (HasRole(caller, ETUDIANT) && Survives(fault, 1) && !Survives(fault, 2)
             && id in db.sessions) ==> o == Reject(db, SERVER_ERROR)
    ensures (HasRole(caller, ETUDIANT) && Survives(fault, 2) && id in db.sessions
             && AlreadyRegistered(db.emargements, caller.value.id, id)) ==> o == Reject(db, UNAUTHORIZED)
    ensures (HasRole(caller, ETUDIANT) && Survives(fault, 2) && !Survives(fault, 3) && id in db.sessions
             && !AlreadyRegistered(db.emargements, caller.value.id, id)) ==> o == Reject(db, SERVER_ERROR)
    ensures o.response.status == OK <==>
              HasRole(caller, ETUDIANT) && id in db.sessions
              && !AlreadyRegistered(db.emargements, caller.value.id, id) && Survives(fault, 3)
    ensures o.response.status == OK ==>
              (var k, e := db.nextEmargement, Emargement(id, caller.value.id, b.presence);
               && k !in db.emargements
               && o.db == db.(emargements := db.emargements[k := e], nextEmargement := k + 1)
               && o.response.body == Registered(k, e))
  {
    if !HasRole(caller, ETUDIANT) then Reject(db, UNAUTHORIZED)
    else if fault == FailAt(0) then Reject(db, SERVER_ERROR)
    else if id !in db.sessions then Reject(db, NOT_FOUND)
    else if fault == FailAt(1) then Reject(db, SERVER_ERROR)
    else
      RecordsOfMeans(db, caller.value.id, id);
      if |RecordsOf(db, caller.value.id, id)| > 0 then Reject(db, UNAUTHORIZED)
      else if fault == FailAt(2) then Reject(db, SERVER_ERROR)
      else
        var e := Emargement(id, caller.value.id, b.presence);
        Outcome(WithRecord(db, e), Response(OK, Registered(db.nextEmargement, e)))
  }

  /** POST /sessions/:id/emargement as index.js writes it: the catch block of
      the duplicate lookup (index.js:357-360) sends a 500 but does not return,
      so the INSERT still runs.  Everywhere else it agrees with PostEmargement. */
  function PostEmargementAsWritten(db: Db, caller: Option<Identity>, id: Id, b: AttendanceBody, fault: Fault, ghost fmt: Formats): (o: Outcome)
    requires Invariant(db) && ValidAttendance(b, fmt)
    ensures !(HasRole(caller, ETUDIANT) && id in db.sessions && fault == FailAt(1)) ==>
              o == PostEmargement(db, caller, id, b, fault, fmt)
    ensures HasRole(caller, ETUDIANT) && id in db.sessions && fault == FailAt(1) ==>
              && o.response.status == SERVER_ERROR
              && o.db == WithRecord(db, Emargement(id, caller.value.id, b.presence))
  {
    if !HasRole(caller, ETUDIANT) then Reject(db, UNAUTHORIZED)
    else if fault == FailAt(0) then Reject(db, SERVER_ERROR)
    else if id !in db.sessions then Reject(db, NOT_FOUND)
    else if fault == FailAt(1) then
      // the 500 is sent, then execution falls through to the INSERT, which succeeds
      Outcome(WithRecord(db, Emargement(id, caller.value.id, b.presence)), Failure(SERVER_ERROR))
    else
      RecordsOfMeans(db, caller.value.id, id);
      if |RecordsOf(db, caller.value.id, id)| > 0 then Reject(db, UNAUTHORIZED)
      else if fault == FailAt(2) then Reject(db, SERVER_ERROR)
      else
        var e := Emargement(id, caller.value.id, b.presence);
        Outcome(WithRecord(db, e), Response(OK, Registered(db.nextEmargement, e)))
  }

  /** GET /sessions/:id/emargement: the calls are the ownership lookup and the join. */
  function ListEmargements(db: Db, caller: Option<Identity>, id: Id, fault: Fault): (r: Response)
    requires Invariant(db)
    ensures OwnerGuard(db, caller, id, fault).Some? ==> r == Failure(OwnerGuard(db, caller, id, fault).value)
    ensures OwnerGuard(db, caller, id, fault).None? && !Survives(fault, 2) ==> r == Failure(SERVER_ERROR)
    ensures r.status == OK <==> OwnerGuard(db, caller, id, fault).None? && Survives(fault, 2)
    ensures r.status == OK ==> r.body == AttendeeList(Attendees(db, id))
  {
    if !HasRole(caller, FORMATEUR) then Failure(UNAUTHORIZED)
    else if fault == FailAt(0) then Failure(SERVER_ERROR)
    else if id !in db.sessions then Failure(NOT_FOUND)
    else if caller.value.id != db.sessions[id].formateurId then Failure(UNAUTHORIZED)
    else if fault == FailAt(1) then Failure(SERVER_ERROR)
    else Response(OK, AttendeeList(Attendees(db, id)))
  }
}
