/** Properties that relate several requests: a signup followed by a login, an
    attendance submitted twice, any sequence of requests, and the finding about
    the attendance handler's failed duplicate lookup. */
module Scenarios {
  import opened Wrappers
  import opened Validation
  import opened Hasher
  import opened Tokens
  import opened Store
  import opened Handlers

  /** A user who signs up with an unused email can then log in with the same
      credentials, and the token carries the new user's id and role. */
  lemma SignupThenLogin(db: Db, key: string, b: SignupBody, salt: Salt, fmt: Formats)
    requires Invariant(db) && ValidSignup(b, fmt)
    requires KnownRole(b.role) && !EmailTaken(db.users, b.email)
    ensures ValidLogin(LoginBody(b.email, b.password), fmt)
    ensures var o := Signup(db, b, salt, NoFault, fmt);
            && o.response == Response(OK, CreatedUser(db.nextUser, b.name, b.email, b.role))
            && Login(o.db, key, LoginBody(b.email, b.password), NoFault, fmt)
               == Response(OK, IssuedToken(Sign(key, Identity(db.nextUser, b.role))))
  {
    SignupPasswordPassesLogin(b, fmt);
    var o := Signup(db, b, salt, NoFault, fmt);
    var id := db.nextUser;
    assert id in o.db.users && o.db.users[id].email == b.email;
    CompareHash(b.password, b.password, salt);
  }

  /** Submitting attendance twice for the same student and session: the first
      request inserts the record, the second is refused with 401 and changes
      nothing. */
  lemma RegisterTwice(db: Db, me: Identity, id: Id, first: AttendanceBody, second: AttendanceBody, fmt: Formats)
    requires Invariant(db) && ValidAttendance(first, fmt) && ValidAttendance(second, fmt)
    requires me.role == ETUDIANT && id in db.sessions
    requires !AlreadyRegistered(db.emargements, me.id, id)
    ensures var o := PostEmargement(db, Some(me), id, first, NoFault, fmt);
            && o.response.status == OK
            && PostEmargement(o.db, Some(me), id, second, NoFault, fmt) == Reject(o.db, UNAUTHORIZED)
  {
  }

  /** Only the formateur who owns a session can change it or delete it; every
      other caller leaves the sessions table as it was. */
  lemma OnlyOwnerWrites(db: Db, caller: Option<Identity>, id: Id, b: SessionBody, fault: Fault, fmt: Formats)
    requires Invariant(db) && ValidSession(b, fmt)
    ensures UpdateSession(db, caller, id, b, fault, fmt).db != db ==>
              id in db.sessions && caller == Some(Identity(db.sessions[id].formateurId, FORMATEUR))
    ensures DeleteSession(db, caller, id, fault).db != db ==>
              id in db.sessions && caller == Some(Identity(db.sessions[id].formateurId, FORMATEUR))
  {
  }

  /** A successful PUT rewrites the title and date of the target session only;
      a successful DELETE removes the target session only. */
  lemma OnlyTargetChanges(db: Db, caller: Option<Identity>, id: Id, b: SessionBody, fault: Fault, other: Id, fmt: Formats)
    requires Invariant(db) && ValidSession(b, fmt) && other != id
    ensures var o := UpdateSession(db, caller, id, b, fault, fmt);
            && o.db.users == db.users && o.db.emargements == db.emargements
            && (other in o.db.sessions <==> other in db.sessions)
            && (other in db.sessions ==> o.db.sessions[other] == db.sessions[other])
            && (o.response.status == OK ==>
                  id in o.db.sessions && o.db.sessions[id].formateurId == db.sessions[id].formateurId
                  && o.db.sessions[id].title == b.title && o.db.sessions[id].date == b.date)
    ensures var o := DeleteSession(db, caller, id, fault);
            && o.db.users == db.users && o.db.emargements == db.emargements
            && (other in o.db.sessions <==> other in db.sessions)
            && (other in db.sessions ==> o.db.sessions[other] == db.sessions[other])
            && (o.response.status == OK ==> id !in o.db.sessions)
  {
  }

  // ----- Any sequence of requests -----

  /** One request as it reaches its handler: validated body, resolved caller,
      route parameter, the salt bcrypt would draw, and which call throws. */
  datatype Request =
    | SignupRequest(signup: SignupBody, salt: Salt, fault: Fault)
    | CreateSessionRequest(caller: Option<Identity>, session: SessionBody, fault: Fault)
    | UpdateSessionRequest(caller: Option<Identity>, id: Id, session: SessionBody, fault: Fault)
    | DeleteSessionRequest(caller: Option<Identity>, id: Id, fault: Fault)
    | PostEmargementRequest(caller: Option<Identity>, id: Id, attendance: AttendanceBody, fault: Fault)

  predicate ValidRequest(req: Request, fmt: Formats) {
    match req
    case SignupRequest(b, _, _) => ValidSignup(b, fmt)
    case CreateSessionRequest(_, b, _) => ValidSession(b, fmt)
    case UpdateSessionRequest(_, _, b, _) => ValidSession(b, fmt)
    case DeleteSessionRequest(_, _, _) => true
    case PostEmargementRequest(_, _, b, _) => ValidAttendance(b, fmt)
  }

  function Apply(db: Db, req: Request, ghost fmt: Formats): Outcome
    requires Invariant(db) && ValidRequest(req, fmt)
  {
    match req
    case SignupRequest(b, salt, fault) => Signup(db, b, salt, fault, fmt)
    case CreateSessionRequest(caller, b, fault) => CreateSession(db, caller, b, fault, fmt)
    case UpdateSessionRequest(caller, id, b, fault) => UpdateSession(db, caller, id, b, fault, fmt)
    case DeleteSessionRequest(caller, id, fault) => DeleteSession(db, caller, id, fault)
    case PostEmargementRequest(caller, id, b, fault) => PostEmargement(db, caller, id, b, fault, fmt)
  }

  /** The tables after serving the requests one after another.  Emails stay
      unique, and there is at most one attendance record per pair, in every
      state the requests reach. */
  function Run(db: Db, reqs: seq<Request>, ghost fmt: Formats): (end: Db)
    requires Invariant(db)
    requires forall i :: 0 <= i < |reqs| ==> ValidRequest(reqs[i], fmt)
    ensures Invariant(end)
    ensures UniqueEmails(end.users) && OneRecordPerPair(end.emargements)
    decreases |reqs|
  {
    if reqs == [] then db
    else Run(Apply(db, reqs[0], fmt).db, reqs[1..], fmt)
  }

  /** Users are only ever added: every account, once created, stays as it was
      after any sequence of requests, so the identity in a token stays valid. */
  lemma {:induction false} UsersOnlyGrow(db: Db, reqs: seq<Request>, id: Id, fmt: Formats)
    requires Invariant(db)
    requires forall i :: 0 <= i < |reqs| ==> ValidRequest(reqs[i], fmt)
    requires id in db.users
    ensures id in Run(db, reqs, fmt).users && Run(db, reqs, fmt).users[id] == db.users[id]
    decreases |reqs|
  {
    if reqs != [] {
      var next := Apply(db, reqs[0], fmt).db;
      assert id in next.users && next.users[id] == db.users[id];
      UsersOnlyGrow(next, reqs[1..], id, fmt);
    }
  }

  // ----- Finding: the failed duplicate lookup falls through -----

  /** With a record already stored for student 2 at session 0, a duplicate
      lookup that throws makes the handler as written answer 500 and still
      insert a second record for the same pair. */
  lemma FailedDuplicateLookupInsertsDuplicate(fmt: Formats)
    ensures var db := Db(map[1 := User("Prof", "p@x.com", Hash("password1", 0), FORMATEUR),
                             2 := User("Ana", "a@x.com", Hash("12345678", 0), ETUDIANT)],
                         map[0 := Session("Algo", "2024-01-01", 1)],
                         map[0 := Emargement(0, 2, true)],
                         3, 1, 1);
            var o := PostEmargementAsWritten(db, Some(Identity(2, ETUDIANT)), 0, AttendanceBody(true), FailAt(1), fmt);
            && Invariant(db)
            && o.response.status == SERVER_ERROR
            && o.db != db
            && !OneRecordPerPair(o.db.emargements)
  {
    var db := Db(map[1 := User("Prof", "p@x.com", Hash("password1", 0), FORMATEUR),
                     2 := User("Ana", "a@x.com", Hash("12345678", 0), ETUDIANT)],
                 map[0 := Session("Algo", "2024-01-01", 1)],
                 map[0 := Emargement(0, 2, true)],
                 3, 1, 1);
    AttendanceRules(AttendanceBody(true), map[], fmt);
    assert "p@x.com"[0] != "a@x.com"[0];
    var o := PostEmargementAsWritten(db, Some(Identity(2, ETUDIANT)), 0, AttendanceBody(true), FailAt(1), fmt);
    assert o.db.emargements[0] == o.db.emargements[1];
  }

  /** The corrected handler keeps the pair unique whichever call throws. */
  lemma CorrectedKeepsOneRecordPerPair(db: Db, caller: Option<Identity>, id: Id, b: AttendanceBody, fault: Fault, fmt: Formats)
    requires Invariant(db) && ValidAttendance(b, fmt)
    ensures OneRecordPerPair(PostEmargement(db, caller, id, b, fault, fmt).db.emargements)
    ensures PostEmargement(db, caller, id, b, fault, fmt).response.status != OK ==>
              PostEmargement(db, caller, id, b, fault, fmt).db == db
  {
  }
}
