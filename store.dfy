/** The three tables the handlers of index.js read and write (users, sessions,
    emargements), held in memory.  Each table maps its primary key to its row
    and has its own auto-increment counter, which stands in for the insertId
    the database returns.  Queries without ORDER BY return their rows here in
    ascending primary-key order. */
module Store {
  import opened Hasher

  type Id = nat

  const FORMATEUR := "formateur"
  const ETUDIANT := "etudiant"

  /** The two roles signup accepts (index.js:32). */
  predicate KnownRole(role: string) {
    role == FORMATEUR || role == ETUDIANT
  }

  datatype User = User(name: string, email: string, password: Digest, role: string)
  datatype Session = Session(title: string, date: string, formateurId: Id)
  /** An attendance record; the column the source writes `presence` into is called `status`. */
  datatype Emargement = Emargement(sessionId: Id, etudiantId: Id, presence: bool)

  datatype Db = Db(
    users: map<Id, User>,
    sessions: map<Id, Session>,
    emargements: map<Id, Emargement>,
    nextUser: Id,
    nextSession: Id,
    nextEmargement: Id)

  const EMPTY: Db := Db(map[], map[], map[], 0, 0, 0)

  /** No two users share an email. */
  ghost predicate UniqueEmails(users: map<Id, User>) {
    forall i, j :: i in users && j in users && users[i].email == users[j].email ==> i == j
  }

  /** At most one attendance record per (etudiant_id, session_id) pair. */
  ghost predicate OneRecordPerPair(es: map<Id, Emargement>) {
    forall i, j ::
      i in es && j in es && es[i].etudiantId == es[j].etudiantId && es[i].sessionId == es[j].sessionId ==> i == j
  }

  ghost predicate EmailTaken(users: map<Id, User>, email: string) {
    exists id :: id in users && users[id].email == email
  }

  ghost predicate AlreadyRegistered(es: map<Id, Emargement>, etudiant: Id, session: Id) {
    exists k :: k in es && es[k].etudiantId == etudiant && es[k].sessionId == session
  }

  /** The invariant every handler keeps: counters lie above every key, emails
      are unique, stored roles are known, one attendance record per pair. */
  ghost predicate Invariant(db: Db) {
    && (forall id :: id in db.users ==> id < db.nextUser)
    && (forall id :: id in db.sessions ==> id < db.nextSession)
    && (forall id :: id in db.emargements ==> id < db.nextEmargement)
    && UniqueEmails(db.users)
    && (forall id :: id in db.users ==> KnownRole(db.users[id].role))
    && OneRecordPerPair(db.emargements)
  }

  /** The keys below `bound` whose rows satisfy `p`, in ascending order: the
      result of `SELECT ... WHERE p` on a table whose keys lie below `bound`. */
  function Select<T>(m: map<Id, T>, p: T -> bool, bound: nat): (ids: seq<Id>)
    ensures forall i :: i in ids <==> i < bound && i in m && p(m[i])
    ensures forall j, k :: 0 <= j < k < |ids| ==> ids[j] < ids[k]
  {
    if bound == 0 then []
    else
      var rest := Select(m, p, bound - 1);
      assert forall j :: 0 <= j < |rest| ==> rest[j] in rest;
      if bound - 1 in m && p(m[bound - 1]) then rest + [bound - 1] else rest
  }

  /** SELECT ... FROM users WHERE email = ? */
  function UsersWithEmail(db: Db, email: string): seq<Id> {
    Select(db.users, (u: User) => u.email == email, db.nextUser)
  }

  /** SELECT * FROM emargements WHERE etudiant_id = ? AND session_id = ? */
  function RecordsOf(db: Db, etudiant: Id, session: Id): seq<Id> {
    Select(db.emargements, (e: Emargement) => e.etudiantId == etudiant && e.sessionId == session, db.nextEmargement)
  }

  /** The email lookup of signup and login finds exactly the users with that email. */
  lemma UsersWithEmailMeans(db: Db, email: string)
    requires Invariant(db)
    ensures |UsersWithEmail(db, email)| > 0 <==> EmailTaken(db.users, email)
    ensures forall id :: id in UsersWithEmail(db, email) <==> id in db.users && db.users[id].email == email
  {
    var rows := UsersWithEmail(db, email);
    if |rows| > 0 {
      assert rows[0] in rows;
    }
    if EmailTaken(db.users, email) {
      var id :| id in db.users && db.users[id].email == email;
      assert id in rows;
    }
  }

  /** The duplicate lookup of the attendance handler finds a row exactly when
      the pair is already registered. */
  lemma RecordsOfMeans(db: Db, etudiant: Id, session: Id)
    requires Invariant(db)
    ensures |RecordsOf(db, etudiant, session)| > 0 <==> AlreadyRegistered(db.emargements, etudiant, session)
  {
    var rows := RecordsOf(db, etudiant, session);
    if AlreadyRegistered(db.emargements, etudiant, session) {
      var k :| k in db.emargements && db.emargements[k].etudiantId == etudiant && db.emargements[k].sessionId == session;
      assert k in rows;
    }
    if |rows| > 0 {
      assert rows[0] in rows;
    }
  }

  // ----- Rows returned by the listing endpoints -----

  datatype SessionRow = SessionRow(id: Id, session: Session)

  /** SELECT * FROM sessions: every stored session exactly once, by ascending id. */
  function AllSessions(db: Db): (rows: seq<SessionRow>)
    requires Invariant(db)
    ensures forall r :: r in rows <==> r.id in db.sessions && db.sessions[r.id] == r.session
    ensures forall j, k :: 0 <= j < k < |rows| ==> rows[j].id < rows[k].id
  {
    var ids := Select(db.sessions, (s: Session) => true, db.nextSession);
    var rows := seq(|ids|, i requires 0 <= i < |ids| => SessionRow(ids[i], db.sessions[ids[i]]));
    assert forall r :: r in rows ==> r.id in ids by {
      forall r | r in rows ensures r.id in ids {
        var i :| 0 <= i < |rows| && rows[i] == r;
      }
    }
    assert forall id :: id in db.sessions ==> SessionRow(id, db.sessions[id]) in rows by {
      forall id | id in db.sessions ensures SessionRow(id, db.sessions[id]) in rows {
        assert id in ids;
        var i :| 0 <= i < |ids| && ids[i] == id;
        assert rows[i] == SessionRow(id, db.sessions[id]);
      }
    }
    rows
  }

  /** One row of the attendance listing: the user's public columns joined with
      the record's session id and presence (index.js:415). */
  datatype Attendee = Attendee(id: Id, name: string, email: string, role: string, sessionId: Id, status: bool)

  function AttendeeOf(userId: Id, u: User, e: Emargement): Attendee {
    Attendee(userId, u.name, u.email, u.role, e.sessionId, e.presence)
  }

  /** users INNER JOIN emargements ON users.id = emargements.etudiant_id, over
      the given record ids in order: records whose user is missing drop out. */
  function Join(users: map<Id, User>, es: map<Id, Emargement>, ids: seq<Id>): (rows: seq<Attendee>)
    requires forall k :: k in ids ==> k in es
    ensures |rows| <= |ids|
    ensures forall a :: a in rows <==>
      exists k :: k in ids && es[k].etudiantId in users && a == AttendeeOf(es[k].etudiantId, users[es[k].etudiantId], es[k])
    ensures (forall j, k :: 0 <= j < k < |ids| ==> es[ids[j]].etudiantId != es[ids[k]].etudiantId) ==>
              forall j, k :: 0 <= j < k < |rows| ==> rows[j].id != rows[k].id
    decreases |ids|
  {
    if ids == [] then []
    else
      var rest := Join(users, es, ids[1..]);
      assert forall k :: k in ids <==> k == ids[0] || k in ids[1..];
      var e := es[ids[0]];
      if e.etudiantId in users then
        var head := AttendeeOf(e.etudiantId, users[e.etudiantId], e);
        assert (forall j, k :: 0 <= j < k < |ids| ==> es[ids[j]].etudiantId != es[ids[k]].etudiantId) ==>
                 forall j :: 0 <= j < |rest| ==> rest[j].id != head.id
        by {
          if forall j, k :: 0 <= j < k < |ids| ==> es[ids[j]].etudiantId != es[ids[k]].etudiantId {
            forall j | 0 <= j < |rest|
              ensures rest[j].id != head.id
            {
              assert rest[j] in rest;
              var k :| k in ids[1..] && es[k].etudiantId in users
                      && rest[j] == AttendeeOf(es[k].etudiantId, users[es[k].etudiantId], es[k]);
              var m :| 0 <= m < |ids[1..]| && ids[1..][m] == k;
              assert ids[m + 1] == k;
            }
          }
        }
        [head] + rest
      else rest
  }

  /** The attendance listing of a session: exactly the joined rows of the
      records whose session_id matches. */
  function Attendees(db: Db, session: Id): (rows: seq<Attendee>)
    requires Invariant(db)
    ensures forall a :: a in rows <==>
      exists k :: k in db.emargements && db.emargements[k].sessionId == session
        && db.emargements[k].etudiantId in db.users
        && a == AttendeeOf(db.emargements[k].etudiantId, db.users[db.emargements[k].etudiantId], db.emargements[k])
    ensures forall j, k :: 0 <= j < k < |rows| ==> rows[j].id != rows[k].id
  {
    var ids := Select(db.emargements, (e: Emargement) => e.sessionId == session, db.nextEmargement);
    assert forall j, k :: 0 <= j < k < |ids| ==> db.emargements[ids[j]].etudiantId != db.emargements[ids[k]].etudiantId
    by {
      forall j, k | 0 <= j < k < |ids|
        ensures db.emargements[ids[j]].etudiantId != db.emargements[ids[k]].etudiantId
      {
        assert ids[j] in ids && ids[k] in ids;
      }
    }
    Join(db.users, db.emargements, ids)
  }
}
