/** The Express application of index.js as an object: the shared database
    connection becomes three mutable tables with their auto-increment
    counters, and each route handler becomes a method that runs its checks in
    the source's order, returns early on the first failure, and writes the
    tables only on success.  Every method is proved to do exactly what the
    matching step function of Handlers describes. */
module Server {
  import opened Wrappers
  import opened Validation
  import opened Hasher
  import opened Tokens
  import opened Store
  import opened Handlers

  class Backend {
    var users: map<Id, User>
    var sessions: map<Id, Session>
    var emargements: map<Id, Emargement>
    var nextUser: Id
    var nextSession: Id
    var nextEmargement: Id
    /** process.env.JWT_KEY, read once at startup. */
    const jwtKey: string

    /** The tables as a value. */
    function State(): Db
      reads this
    {
      Db(users, sessions, emargements, nextUser, nextSession, nextEmargement)
    }

    ghost predicate Valid()
      reads this
    {
      Invariant(State())
    }

    /** A server over the tables the database connection finds at startup
        (index.js:15), which may already hold rows. */
    constructor (key: string, init: Db)
      requires Invariant(init)
      ensures Valid() && State() == init && jwtKey == key
    {
      users, sessions, emargements := init.users, init.sessions, init.emargements;
      nextUser, nextSession, nextEmargement := init.nextUser, init.nextSession, init.nextEmargement;
      jwtKey := key;
    }

    /** POST /auth/signup (index.js:28-70). */
    method Signup(b: SignupBody, salt: Salt, fault: Fault, ghost fmt: Formats) returns (res: Response)
      requires Valid() && ValidSignup(b, fmt)
      modifies this
      ensures Valid()
      ensures Outcome(State(), res) == Handlers.Signup(old(State()), b, salt, fault, fmt)
    {
      if b.role != FORMATEUR && b.role != ETUDIANT {
        return Failure(BAD_REQUEST);
      }
      if fault == FailAt(0) {
        return Failure(SERVER_ERROR);
      }
      var rows := UsersWithEmail(State(), b.email);
      if |rows| > 0 {
        return Failure(UNAUTHORIZED);
      }
      if fault == FailAt(1) {
        return Failure(SERVER_ERROR);
      }
      var hashed := Hash(b.password, salt);
      if fault == FailAt(2) {
        return Failure(SERVER_ERROR);
      }
      var id := nextUser;
      users := users[id := User(b.name, b.email, hashed, b.role)];
      nextUser := nextUser + 1;
      res := Response(OK, CreatedUser(id, b.name, b.email, b.role));
    }

    /** POST /auth/login (index.js:77-114); reads the tables only. */
    method Login(b: LoginBody, fault: Fault, ghost fmt: Formats) returns (res: Response)
      requires Valid() && ValidLogin(b, fmt)
      ensures res == Handlers.Login(State(), jwtKey, b, fault, fmt)
    {
      if fault == FailAt(0) {
        return Failure(SERVER_ERROR);
      }
      var rows := UsersWithEmail(State(), b.email);
      if |rows| == 0 {
        return Failure(UNAUTHORIZED);
      }
      assert rows[0] in rows;
      var user := users[rows[0]];
      if fault == FailAt(1) {
        return Failure(SERVER_ERROR);
      }
      if !Compare(b.password, user.password) {
        return Failure(UNAUTHORIZED);
      }
      if fault == FailAt(2) {
        return Failure(SERVER_ERROR);
      }
      var token := Sign(jwtKey, Identity(rows[0], user.role));
      res := Response(OK, IssuedToken(token));
    }

    /** GET /protected (index.js:117-121). */
    method Protected(caller: Option<Identity>) returns (res: Response)
      ensures res == Handlers.Protected(caller)
    {
      if caller.None? {
        return Failure(UNAUTHORIZED);
      }
      res := Response(OK, Empty);
    }

    /** POST /sessions (index.js:132-157). */
    method CreateSession(caller: Option<Identity>, b: SessionBody, fault: Fault, ghost fmt: Formats) returns (res: Response)
      requires Valid() && ValidSession(b, fmt)
      modifies this
      ensures Valid()
      ensures Outcome(State(), res) == Handlers.CreateSession(old(State()), caller, b, fault, fmt)
    {
      if caller.None? || caller.value.role != FORMATEUR {
        return Failure(UNAUTHORIZED);
      }
      if fault == FailAt(0) {
        return Failure(SERVER_ERROR);
      }
      var id := nextSession;
      var s := Session(b.title, b.date, caller.value.id);
      sessions := sessions[id := s];
      nextSession := nextSession + 1;
      res := Response(OK, SessionFound(SessionRow(id, s)));
    }

    /** GET /sessions (index.js:160-172); reads the tables only. */
    method ListSessions(fault: Fault) returns (res: Response)
      requires Valid()
      ensures res == Handlers.ListSessions(State(), fault)
    {
      if fault == FailAt(0) {
        return Failure(SERVER_ERROR);
      }
      res := Response(OK, SessionList(AllSessions(State())));
    }

    /** GET /sessions/:id (index.js:175-198); reads the tables only. */
    method GetSession(id: Id, fault: Fault) returns (res: Response)
      ensures res == Handlers.GetSession(State(), id, fault)
    {
      if fault == FailAt(0) {
        return Failure(SERVER_ERROR);
      }
      if id !in sessions {
        return Failure(NOT_FOUND);
      }
      res := Response(OK, SessionFound(SessionRow(id, sessions[id])));
    }

    /** PUT /sessions/:id (index.js:205-254).  The handler at index.js:205
        starts with a stray identifier `az`, which would throw before any of
        these checks; the method models the logic written below it. */
    method UpdateSession(caller: Option<Identity>, id: Id, b: SessionBody, fault: Fault, ghost fmt: Formats) returns (res: Response)
      requires Valid() && ValidSession(b, fmt)
      modifies this
      ensures Valid()
      ensures Outcome(State(), res) == Handlers.UpdateSession(old(State()), caller, id, b, fault, fmt)
    {
      if caller.None? || caller.value.role != FORMATEUR {
        return Failure(UNAUTHORIZED);
      }
      if fault == FailAt(0) {
        return Failure(SERVER_ERROR);
      }
      if id !in sessions {
        return Failure(NOT_FOUND);
      }
      if sessions[id].formateurId != caller.value.id {
        return Failure(UNAUTHORIZED);
      }
      if fault == FailAt(1) {
        return Failure(SERVER_ERROR);
      }
      sessions := sessions[id := sessions[id].(title := b.title, date := b.date)];
      res := Response(OK, Empty);
    }

    /** DELETE /sessions/:id (index.js:257-305). */
    method DeleteSession(caller: Option<Identity>, id: Id, fault: Fault) returns (res: Response)
      requires Valid()
      modifies this
      ensures Valid()
      ensures Outcome(State(), res) == Handlers.DeleteSession(old(State()), caller, id, fault)
    {
      if caller.None? || caller.value.role != FORMATEUR {
        return Failure(UNAUTHORIZED);
      }
      if fault == FailAt(0) {
        return Failure(SERVER_ERROR);
      }
      if id !in sessions {
        return Failure(NOT_FOUND);
      }
      if sessions[id].formateurId != caller.value.id {
        return Failure(UNAUTHORIZED);
      }
      if fault == FailAt(1) {
        return Failure(SERVER_ERROR);
      }
      sessions := sessions - {id};
      res := Response(OK, Empty);
    }

    /** POST /sessions/:id/emargement (index.js:316-376), with a failed
        duplicate lookup returning its 500 instead of falling through to the
        INSERT. */
    method PostEmargement(caller: Option<Identity>, id: Id, b: AttendanceBody, fault: Fault, ghost fmt: Formats) returns (res: Response)
      requires Valid() && ValidAttendance(b, fmt)
      modifies this
      ensures Valid()
      ensures Outcome(State(), res) == Handlers.PostEmargement(old(State()), caller, id, b, fault, fmt)
    {
      if caller.None? || caller.value.role != ETUDIANT {
        return Failure(UNAUTHORIZED);
      }
      if fault == FailAt(0) {
        return Failure(SERVER_ERROR);
      }
      if id !in sessions {
        return Failure(NOT_FOUND);
      }
      if fault == FailAt(1) {
        return Failure(SERVER_ERROR);
      }
      var existing := RecordsOf(State(), caller.value.id, id);
      if |existing| > 0 {
        return Failure(UNAUTHORIZED);
      }
      if fault == FailAt(2) {
        return Failure(SERVER_ERROR);
      }
      var k := nextEmargement;
      var e := Emargement(id, caller.value.id, b.presence);
      emargements := emargements[k := e];
      nextEmargement := nextEmargement + 1;
      res := Response(OK, Registered(k, e));
    }

    /** GET /sessions/:id/emargement (index.js:378-424); reads the tables only. */
    method ListEmargements(caller: Option<Identity>, id: Id, fault: Fault) returns (res: Response)
      requires Valid()
      ensures res == Handlers.ListEmargements(State(), caller, id, fault)
    {
      if caller.None? || caller.value.role != FORMATEUR {
        return Failure(UNAUTHORIZED);
      }
      if fault == FailAt(0) {
        return Failure(SERVER_ERROR);
      }
      if id !in sessions {
        return Failure(NOT_FOUND);
      }
      if caller.value.id != sessions[id].formateurId {
        return Failure(UNAUTHORIZED);
      }
      if fault == FailAt(1) {
        return Failure(SERVER_ERROR);
      }
      res := Response(OK, AttendeeList(Attendees(State(), id)));
    }
  }

  /** A client of the server: a formateur creates a session, a student
      registers once and is refused the second time, and another formateur
      cannot delete the session.  The date check is left open except that it
      accepts this session's date. */
  method SessionClient(key: string, ghost fmt: Formats)
    requires fmt.isDate("2024-01-01")
  {
    var app := new Backend(key, EMPTY);
    var course := SessionBody("Algo", "2024-01-01");
    SessionRules(course, fmt);
    var r := app.CreateSession(Some(Identity(0, FORMATEUR)), course, NoFault, fmt);
    assert r.status == OK && r.body.row.id == 0;
    AttendanceRules(AttendanceBody(true), map[], fmt);
    AttendanceRules(AttendanceBody(false), map[], fmt);
    r := app.PostEmargement(Some(Identity(1, ETUDIANT)), 0, AttendanceBody(true), NoFault, fmt);
    assert r.status == OK;
    r := app.PostEmargement(Some(Identity(1, ETUDIANT)), 0, AttendanceBody(false), NoFault, fmt);
    assert r.status == UNAUTHORIZED;
    r := app.DeleteSession(Some(Identity(2, FORMATEUR)), 0, NoFault);
    assert r.status == UNAUTHORIZED;
  }
}
