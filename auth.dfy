/** controllers/authController.js: `register` and `login`.

    `bcrypt.hash`, `bcrypt.compare` and the token step are parameters. The
    token step is `None` when it throws; as written `generateToken` is never
    imported, so in the repository it always throws. */
module AuthController {
  import opened Common
  import opened Store

  const STUDENT := "student"
  const FACILITATOR := "facilitator"
  const MANAGER := "manager"
  /** The roles `register` accepts. */
  const ROLES: set<string> := {STUDENT, FACILITATOR, MANAGER}

  const REQUIRED := "Email, password, and role are required"
  const BAD_ROLE := "Invalid role specified"
  const EMAIL_TAKEN := "Email already in use"
  const REGISTRATION_FAILED := "Registration failed"
  const INVALID_CREDENTIALS := "Invalid credentials"
  const LOGIN_FAILED := "Login failed"

  /** The body of `POST /api/auth/register`; an omitted `extraData` is `{}`. */
  datatype RegisterBody = RegisterBody(email: Field, password: Field, role: Field, extraData: map<string, string>)

  /** The body of `POST /api/auth/login`. */
  datatype LoginBody = LoginBody(email: Field, password: Field)

  predicate EmailTaken(users: map<Id, User>, email: string) {
    AnyRow(users, (u: User) => u.email == email)
  }

  /** No two users share an e-mail address. */
  predicate UniqueEmails(users: map<Id, User>) {
    forall j, k :: j in users && k in users && users[j].email == users[k].email ==> j == k
  }

  /** The guard checks of `register`: the message of the first that fails. */
  function RegisterRejection(users: map<Id, User>, b: RegisterBody): (m: Option<string>)
    ensures m.None? <==> Truthy(b.email) && Truthy(b.password) && Truthy(b.role)
                         && b.role.value in ROLES && !EmailTaken(users, b.email.value)
    ensures !(Truthy(b.email) && Truthy(b.password) && Truthy(b.role)) ==> m == Some(REQUIRED)
    ensures Truthy(b.email) && Truthy(b.password) && Truthy(b.role) && b.role.value !in ROLES ==> m == Some(BAD_ROLE)
    ensures m == Some(EMAIL_TAKEN) <==> Truthy(b.email) && Truthy(b.password) && Truthy(b.role)
                                        && b.role.value in ROLES && EmailTaken(users, b.email.value)
  {
    if !Truthy(b.email) || !Truthy(b.password) || !Truthy(b.role) then Some(REQUIRED)
    else if b.role.value !in ROLES then Some(BAD_ROLE)
    else if EmailTaken(users, b.email.value) then Some(EMAIL_TAKEN)
    else None
  }

  /** `{ userId: user.id, ...extraData }`: a `userId` key in `extraData` wins. */
  function NewProfile(userId: Id, extraData: map<string, string>): (p: RoleProfile)
    ensures "userId" !in extraData ==> p.userId == userId
    ensures "userId" in extraData ==> p.userId == extraData["userId"]
    ensures p.extraData == extraData
  {
    RoleProfile(if "userId" in extraData then extraData["userId"] else userId, extraData)
  }

  /** `register`. `userId` and `profileId` are the generated primary keys; the
      user row is given no name. */
  method Register(users: Table<User>, students: Table<RoleProfile>, facilitators: Table<RoleProfile>,
                  managers: Table<RoleProfile>, b: RegisterBody, hash: string -> string,
                  userId: Id, profileId: Id, token: Option<string>) returns (r: Reply<string>)
    requires students != facilitators && students != managers && facilitators != managers
    modifies users, students, facilitators, managers
    // A rejected request writes nothing.
    ensures RegisterRejection(old(users.rows), b).Some? ==>
              r == Fail(400, RegisterRejection(old(users.rows), b).value)
              && users.rows == old(users.rows) && students.rows == old(students.rows)
              && facilitators.rows == old(facilitators.rows) && managers.rows == old(managers.rows)
    ensures r.Fail? && r.status == 400 ==> users.rows == old(users.rows)
    ensures r.Ok? ==> token.Some? && r == Ok(201, token.value)
    ensures r.Ok? || r.status in {400, 500}
    ensures r.Fail? && r.status == 500 ==> r.message == REGISTRATION_FAILED
    // Past the checks, exactly one user is written, then one profile of its role.
    ensures RegisterRejection(old(users.rows), b).None? && userId !in old(users.rows) ==>
              users.rows == old(users.rows)[userId := User(b.email.value, hash(b.password.value), b.role.value, "")]
    ensures RegisterRejection(old(users.rows), b).None? && userId !in old(users.rows) ==>
              var p := NewProfile(userId, b.extraData);
              var role := b.role.value;
              (students.rows == if role == STUDENT && profileId !in old(students.rows)
                                then old(students.rows)[profileId := p] else old(students.rows))
              && (facilitators.rows == if role == FACILITATOR && profileId !in old(facilitators.rows)
                                       then old(facilitators.rows)[profileId := p] else old(facilitators.rows))
              && (managers.rows == if role == MANAGER && profileId !in old(managers.rows)
                                   then old(managers.rows)[profileId := p] else old(managers.rows))
    // Success needs both rows written and the token.
    ensures r.Ok? <==> RegisterRejection(old(users.rows), b).None? && userId !in old(users.rows)
                       && token.Some?
                       && profileId !in old(if b.role.value == STUDENT then students.rows
                                            else if b.role.value == FACILITATOR then facilitators.rows
                                            else managers.rows)
    ensures UniqueEmails(old(users.rows)) ==> UniqueEmails(users.rows)
  {
    var m := RegisterRejection(users.rows, b);
    if m.Some? {
      return Fail(400, m.value);
    }
    var created := users.Create(userId, User(b.email.value, hash(b.password.value), b.role.value, ""));
    if !created {
      return Fail(500, REGISTRATION_FAILED);
    }
    var p := NewProfile(userId, b.extraData);
    var profiled: bool;
    if b.role.value == STUDENT {
      profiled := students.Create(profileId, p);
    } else if b.role.value == FACILITATOR {
      profiled := facilitators.Create(profileId, p);
    } else {
      profiled := managers.Create(profileId, p);
    }
    if !profiled || token.None? {
      return Fail(500, REGISTRATION_FAILED);
    }
    return Ok(201, token.value);
  }

  /** `login`. `compare(password, hash)` is `bcrypt.compare`. An omitted email
      makes the store's `findOne` throw, an omitted password makes `compare`
      throw; both end in the catch. */
  method Login(users: map<Id, User>, b: LoginBody, compare: (string, string) -> bool, token: Option<string>)
    returns (r: Reply<string>)
    ensures b.email.None? ==> r == Fail(500, LOGIN_FAILED)
    ensures b.email.Some? && !EmailTaken(users, b.email.value) ==> r == Fail(400, INVALID_CREDENTIALS)
    // A wrong password for the stored email gets the same 400 as an unknown email.
    ensures b.email.Some? && b.password.Some?
            && !AnyRow(users, (u: User) => u.email == b.email.value && compare(b.password.value, u.password))
            ==> r == Fail(400, INVALID_CREDENTIALS)
    ensures b.email.Some? && EmailTaken(users, b.email.value) && b.password.None? ==> r == Fail(500, LOGIN_FAILED)
    ensures r.Fail? && r.status == 400 ==> r.message == INVALID_CREDENTIALS
    ensures r.Fail? && r.status != 400 ==> r == Fail(500, LOGIN_FAILED)
    ensures r.Ok? ==> b.email.Some? && b.password.Some? && token.Some? && r == Ok(200, token.value)
                      && AnyRow(users, (u: User) => u.email == b.email.value && compare(b.password.value, u.password))
    ensures b.email.Some? && b.password.Some? && token.Some? && UniqueEmails(users)
            && AnyRow(users, (u: User) => u.email == b.email.value && compare(b.password.value, u.password))
            ==> r == Ok(200, token.value)
  {
    if b.email.None? {
      return Fail(500, LOGIN_FAILED);
    }
    var found := FindOne(users, (u: User) => u.email == b.email.value);
    if found.None? {
      return Fail(400, INVALID_CREDENTIALS);
    }
    if b.password.None? {
      return Fail(500, LOGIN_FAILED);
    }
    if !compare(b.password.value, users[found.value].password) {
      return Fail(400, INVALID_CREDENTIALS);
    }
    if token.None? {
      return Fail(500, LOGIN_FAILED);
    }
    return Ok(200, token.value);
  }
}
