/** Request validation: the zod object schemas declared in index.js, the check
    each field rule performs, and the typed bodies a handler receives once
    validation has passed.  The middleware that runs a schema against a request
    (validateData) is not part of this model; what it guarantees to a handler
    is stated by the Valid* predicates below. */
module Validation {
  import opened Wrappers

  /** A JSON value as it arrives in a parsed request body. */
  datatype Value = Str(s: string) | Bool(b: bool) | Num(n: int) | Null

  /** A parsed request body: field name to value. */
  type Body = map<string, Value>

  /** One field rule of a zod object schema. */
  datatype Rule =
    | MinLength(n: nat)  // z.string().min(n)
    | EmailFormat        // z.string().email()
    | DateFormat         // z.string().date()
    | IsBoolean          // z.boolean()

  /** zod's email and calendar-date format checks, which this model leaves
      abstract: which strings they accept is a parameter. */
  datatype Formats = Formats(isEmail: string -> bool, isDate: string -> bool)

  /** A zod object schema: the declared fields with their rules. */
  type Schema = seq<(string, Rule)>

  const SIGNUP_SCHEMA: Schema :=
    [("name", MinLength(2)), ("email", EmailFormat), ("password", MinLength(8)), ("role", MinLength(2))]
  const LOGIN_SCHEMA: Schema :=
    [("email", EmailFormat), ("password", MinLength(8))]
  /** The schema for creating a session; the one for modifying a session is identical. */
  const SESSION_SCHEMA: Schema :=
    [("title", MinLength(2)), ("date", DateFormat)]
  const ATTENDANCE_SCHEMA: Schema :=
    [("presence", IsBoolean)]

  function Field(body: Body, name: string): Option<Value> {
    if name in body then Some(body[name]) else None
  }

  /** Does the (possibly missing) field value pass the rule?  A missing field
      fails every rule. */
  predicate Satisfies(rule: Rule, v: Option<Value>, fmt: Formats) {
    match rule
    case MinLength(n) => v.Some? && v.value.Str? && |v.value.s| >= n
    case EmailFormat => v.Some? && v.value.Str? && fmt.isEmail(v.value.s)
    case DateFormat => v.Some? && v.value.Str? && fmt.isDate(v.value.s)
    case IsBoolean => v.Some? && v.value.Bool?
  }

  /** The names of the declared fields whose rule the body violates, in
      declaration order: the error details a failed validation reports. */
  function Violations(schema: Schema, body: Body, fmt: Formats): (bad: seq<string>)
    ensures |bad| <= |schema|
    ensures forall f :: f in bad <==>
      exists i :: 0 <= i < |schema| && schema[i].0 == f && !Satisfies(schema[i].1, Field(body, f), fmt)
  {
    if schema == [] then []
    else
      var rest := Violations(schema[1..], body, fmt);
      assert forall i :: 0 < i < |schema| ==> schema[i] == schema[1..][i - 1];
      if Satisfies(schema[0].1, Field(body, schema[0].0), fmt) then rest else [schema[0].0] + rest
  }

  /** A body with no violations satisfies every rule of the schema. */
  lemma Accepted(schema: Schema, body: Body, fmt: Formats, i: nat)
    requires Violations(schema, body, fmt) == []
    requires i < |schema|
    ensures Satisfies(schema[i].1, Field(body, schema[i].0), fmt)
  {
  }

  /** Validation looks only at the declared fields. */
  lemma {:induction false} SameDeclaredFields(schema: Schema, b1: Body, b2: Body, fmt: Formats)
    requires forall i :: 0 <= i < |schema| ==> Field(b1, schema[i].0) == Field(b2, schema[i].0)
    ensures Violations(schema, b1, fmt) == Violations(schema, b2, fmt)
  {
    if schema != [] {
      SameDeclaredFields(schema[1..], b1, b2, fmt);
    }
  }

  // ----- Typed bodies -----

  datatype SignupBody = SignupBody(name: string, email: string, password: string, role: string)
  datatype LoginBody = LoginBody(email: string, password: string)
  datatype SessionBody = SessionBody(title: string, date: string)
  datatype AttendanceBody = AttendanceBody(presence: bool)

  function SignupFields(b: SignupBody): Body {
    map["name" := Str(b.name), "email" := Str(b.email), "password" := Str(b.password), "role" := Str(b.role)]
  }
  function LoginFields(b: LoginBody): Body {
    map["email" := Str(b.email), "password" := Str(b.password)]
  }
  function SessionFields(b: SessionBody): Body {
    map["title" := Str(b.title), "date" := Str(b.date)]
  }
  function AttendanceFields(b: AttendanceBody): Body {
    map["presence" := Bool(b.presence)]
  }

  /** What validateData guarantees to each handler: its body passes the schema. */
  predicate ValidSignup(b: SignupBody, fmt: Formats) { Violations(SIGNUP_SCHEMA, SignupFields(b), fmt) == [] }
  predicate ValidLogin(b: LoginBody, fmt: Formats) { Violations(LOGIN_SCHEMA, LoginFields(b), fmt) == [] }
  predicate ValidSession(b: SessionBody, fmt: Formats) { Violations(SESSION_SCHEMA, SessionFields(b), fmt) == [] }
  predicate ValidAttendance(b: AttendanceBody, fmt: Formats) { Violations(ATTENDANCE_SCHEMA, AttendanceFields(b), fmt) == [] }

  /** Parse a raw signup body: succeeds exactly when no rule is violated, and
      then carries the body's own field values. */
  function DecodeSignup(body: Body, fmt: Formats): (r: Option<SignupBody>)
    ensures r.Some? <==> Violations(SIGNUP_SCHEMA, body, fmt) == []
    ensures r.Some? ==>
              && ValidSignup(r.value, fmt)
              && Field(body, "name") == Some(Str(r.value.name))
              && Field(body, "email") == Some(Str(r.value.email))
              && Field(body, "password") == Some(Str(r.value.password))
              && Field(body, "role") == Some(Str(r.value.role))
  {
    if Violations(SIGNUP_SCHEMA, body, fmt) != [] then None
    else
      Accepted(SIGNUP_SCHEMA, body, fmt, 0);
      Accepted(SIGNUP_SCHEMA, body, fmt, 1);
      Accepted(SIGNUP_SCHEMA, body, fmt, 2);
      Accepted(SIGNUP_SCHEMA, body, fmt, 3);
      var b := SignupBody(body["name"].s, body["email"].s, body["password"].s, body["role"].s);
      SameDeclaredFields(SIGNUP_SCHEMA, body, SignupFields(b), fmt);
      Some(b)
  }

  function DecodeLogin(body: Body, fmt: Formats): (r: Option<LoginBody>)
    ensures r.Some? <==> Violations(LOGIN_SCHEMA, body, fmt) == []
    ensures r.Some? ==>
              && ValidLogin(r.value, fmt)
              && Field(body, "email") == Some(Str(r.value.email))
              && Field(body, "password") == Some(Str(r.value.password))
  {
    if Violations(LOGIN_SCHEMA, body, fmt) != [] then None
    else
      Accepted(LOGIN_SCHEMA, body, fmt, 0);
      Accepted(LOGIN_SCHEMA, body, fmt, 1);
      var b := LoginBody(body["email"].s, body["password"].s);
      SameDeclaredFields(LOGIN_SCHEMA, body, LoginFields(b), fmt);
      Some(b)
  }

  function DecodeSession(body: Body, fmt: Formats): (r: Option<SessionBody>)
    ensures r.Some? <==> Violations(SESSION_SCHEMA, body, fmt) == []
    ensures r.Some? ==>
              && ValidSession(r.value, fmt)
              && Field(body, "title") == Some(Str(r.value.title))
              && Field(body, "date") == Some(Str(r.value.date))
  {
    if Violations(SESSION_SCHEMA, body, fmt) != [] then None
    else
      Accepted(SESSION_SCHEMA, body, fmt, 0);
      Accepted(SESSION_SCHEMA, body, fmt, 1);
      var b := SessionBody(body["title"].s, body["date"].s);
      SameDeclaredFields(SESSION_SCHEMA, body, SessionFields(b), fmt);
      Some(b)
  }

  function DecodeAttendance(body: Body, fmt: Formats): (r: Option<AttendanceBody>)
    ensures r.Some? <==> Violations(ATTENDANCE_SCHEMA, body, fmt) == []
    ensures r.Some? ==> ValidAttendance(r.value, fmt) && Field(body, "presence") == Some(Bool(r.value.presence))
  {
    if Violations(ATTENDANCE_SCHEMA, body, fmt) != [] then None
    else
      Accepted(ATTENDANCE_SCHEMA, body, fmt, 0);
      var b := AttendanceBody(body["presence"].b);
      SameDeclaredFields(ATTENDANCE_SCHEMA, body, AttendanceFields(b), fmt);
      Some(b)
  }

  // ----- What the schemas demand, field by field -----

  lemma SignupRules(b: SignupBody, fmt: Formats)
    ensures ValidSignup(b, fmt) <==> |b.name| >= 2 && fmt.isEmail(b.email) && |b.password| >= 8 && |b.role| >= 2
  {
    var body := SignupFields(b);
    if ValidSignup(b, fmt) {
      Accepted(SIGNUP_SCHEMA, body, fmt, 0);
      Accepted(SIGNUP_SCHEMA, body, fmt, 1);
      Accepted(SIGNUP_SCHEMA, body, fmt, 2);
      Accepted(SIGNUP_SCHEMA, body, fmt, 3);
    } else {
      var f := Violations(SIGNUP_SCHEMA, body, fmt)[0];
      var i :| 0 <= i < |SIGNUP_SCHEMA| && SIGNUP_SCHEMA[i].0 == f && !Satisfies(SIGNUP_SCHEMA[i].1, Field(body, f), fmt);
    }
  }

  lemma LoginRules(b: LoginBody, fmt: Formats)
    ensures ValidLogin(b, fmt) <==> fmt.isEmail(b.email) && |b.password| >= 8
  {
    var body := LoginFields(b);
    if ValidLogin(b, fmt) {
      Accepted(LOGIN_SCHEMA, body, fmt, 0);
      Accepted(LOGIN_SCHEMA, body, fmt, 1);
    } else {
      var f := Violations(LOGIN_SCHEMA, body, fmt)[0];
      var i :| 0 <= i < |LOGIN_SCHEMA| && LOGIN_SCHEMA[i].0 == f && !Satisfies(LOGIN_SCHEMA[i].1, Field(body, f), fmt);
    }
  }

  lemma SessionRules(b: SessionBody, fmt: Formats)
    ensures ValidSession(b, fmt) <==> |b.title| >= 2 && fmt.isDate(b.date)
  {
    var body := SessionFields(b);
    if ValidSession(b, fmt) {
      Accepted(SESSION_SCHEMA, body, fmt, 0);
      Accepted(SESSION_SCHEMA, body, fmt, 1);
    } else {
      var f := Violations(SESSION_SCHEMA, body, fmt)[0];
      var i :| 0 <= i < |SESSION_SCHEMA| && SESSION_SCHEMA[i].0 == f && !Satisfies(SESSION_SCHEMA[i].1, Field(body, f), fmt);
    }
  }

  /** Every boolean presence passes; the boolean check rejects everything else. */
  lemma AttendanceRules(b: AttendanceBody, body: Body, fmt: Formats)
    ensures ValidAttendance(b, fmt)
    ensures Violations(ATTENDANCE_SCHEMA, body, fmt) == [] <==> Field(body, "presence").Some? && Field(body, "presence").value.Bool?
  {
  }

  /** Whoever signed up with a valid body can send a valid login body with the
      same email and password: both schemas apply the same email format and ask
      for at least 8 password characters. */
  lemma SignupPasswordPassesLogin(b: SignupBody, fmt: Formats)
    requires ValidSignup(b, fmt)
    ensures ValidLogin(LoginBody(b.email, b.password), fmt)
  {
    SignupRules(b, fmt);
    LoginRules(LoginBody(b.email, b.password), fmt);
  }
}
