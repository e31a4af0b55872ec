/** controllers/studentController.js: creating, updating and deleting students
    with the e-mail uniqueness guard and the "falsy keeps the old value" merge.
    `bcrypt.hash` is the parameter `hash`. Students are the rows the controller
    reads and writes, with the e-mail and password columns it uses. */
module StudentController {
  import opened Common
  import opened Store

  const EMAIL_TAKEN := "Email already in use"
  const NOT_FOUND := "Student not found"
  const DELETED := "Student deleted successfully"

  /** The student keys of a request body. */
  datatype StudentBody = StudentBody(name: Field, email: Field, password: Field, classId: Field, cohortId: Field)

  /** The student as every response shows it: there is no password field. */
  datatype StudentView = StudentView(id: Id, name: string, email: string, classId: Id, cohortId: Id)

  function View(id: Id, s: Student): StudentView {
    StudentView(id, s.name, s.email, s.classId, s.cohortId)
  }

  function Email(s: Student): string {
    s.email
  }

  /** `Student.findOne({ where: { email } })` finds a row. */
  predicate EmailInUse(rows: map<Id, Student>, email: string) {
    AnyRow(rows, (s: Student) => s.email == email)
  }

  // ---------------------------------------------------------------------------
  // createStudent

  /** `createStudent` with `newId` the generated key. An omitted email makes
      `findOne` throw, an omitted password makes `hash` throw, and an omitted
      name, classId or cohortId fails the NOT NULL check; all end in the 400 of
      the catch. */
  function CreateEffect(rows: map<Id, Student>, b: StudentBody, hash: string -> string, newId: Id)
    : (e: Effect<StudentView, Student>)
    ensures e.reply.Fail? ==> e.rows == rows && e.reply.status in {400, 409}
    ensures e.reply == Fail(409, EMAIL_TAKEN) <==> b.email.Some? && EmailInUse(rows, b.email.value)
    ensures e.reply.Ok? <==> b.name.Some? && b.email.Some? && b.password.Some? && b.classId.Some?
                             && b.cohortId.Some? && !EmailInUse(rows, b.email.value) && newId !in rows
    ensures e.reply.Ok? ==> e.reply.status == 201 && e.rows.Keys == rows.Keys + {newId}
                            && e.rows[newId] == Student(b.name.value, b.email.value, hash(b.password.value),
                                                        b.classId.value, b.cohortId.value)
                            && e.reply.data == View(newId, e.rows[newId])
                            && forall k :: k in rows ==> e.rows[k] == rows[k]
    ensures UniqueBy(rows, Email) ==> UniqueBy(e.rows, Email)
  {
    if b.email.None? then Effect(Fail(400, STORE_ERROR), rows)
    else if EmailInUse(rows, b.email.value) then Effect(Fail(409, EMAIL_TAKEN), rows)
    else if b.password.None? || b.name.None? || b.classId.None? || b.cohortId.None? || newId in rows
    then Effect(Fail(400, STORE_ERROR), rows)
    else
      var s := Student(b.name.value, b.email.value, hash(b.password.value), b.classId.value, b.cohortId.value);
      assert forall k :: k in rows ==> rows[k].email != s.email;
      Effect(Ok(201, View(newId, s)), rows[newId := s])
  }

  /** `createStudent`. */
  method CreateStudent(table: Table<Student>, b: StudentBody, hash: string -> string, newId: Id)
    returns (r: Reply<StudentView>)
    modifies table
    ensures Effect(r, table.rows) == CreateEffect(old(table.rows), b, hash, newId)
  {
    if b.email.None? {
      return Fail(400, STORE_ERROR);
    }
    var existing := FindOne(table.rows, (s: Student) => s.email == b.email.value);
    if existing.Some? {
      return Fail(409, EMAIL_TAKEN);
    }
    if b.password.None? || b.name.None? || b.classId.None? || b.cohortId.None? {
      return Fail(400, STORE_ERROR);
    }
    var s := Student(b.name.value, b.email.value, hash(b.password.value), b.classId.value, b.cohortId.value);
    var ok := table.Create(newId, s);
    if !ok {
      return Fail(400, STORE_ERROR);
    }
    return Ok(201, View(newId, s));
  }

  // ---------------------------------------------------------------------------
  // updateStudent and updateProfile

  /** The e-mail change the request asks for is taken by some student. */
  predicate EmailConflict(rows: map<Id, Student>, s: Student, b: StudentBody) {
    Truthy(b.email) && b.email.value != s.email && EmailInUse(rows, b.email.value)
  }

  /** The record after the assignments of the update. */
  function Merged(s: Student, b: StudentBody, hash: string -> string): Student {
    Student(OrElse(b.name, s.name), OrElse(b.email, s.email),
            if Truthy(b.password) then hash(b.password.value) else s.password,
            OrElse(b.classId, s.classId), OrElse(b.cohortId, s.cohortId))
  }

  /** `updateStudent` on student `id`. */
  function UpdateEffect(rows: map<Id, Student>, id: Id, b: StudentBody, hash: string -> string)
    : (e: Effect<StudentView, Student>)
    ensures id !in rows ==> e == Effect(Fail(404, NOT_FOUND), rows)
    ensures id in rows && EmailConflict(rows, rows[id], b) ==> e == Effect(Fail(409, EMAIL_TAKEN), rows)
    ensures e.reply.Ok? <==> id in rows && !EmailConflict(rows, rows[id], b)
    ensures e.reply.Ok? ==>
              e.rows.Keys == rows.Keys && (forall k :: k in rows && k != id ==> e.rows[k] == rows[k])
              && e.reply == Ok(200, View(id, e.rows[id]))
    // The password changes only when one is supplied, and is stored hashed.
    ensures e.reply.Ok? ==>
              e.rows[id].password == if Truthy(b.password) then hash(b.password.value) else rows[id].password
    ensures UniqueBy(rows, Email) ==> UniqueBy(e.rows, Email)
  {
    if id !in rows then Effect(Fail(404, NOT_FOUND), rows)
    else if EmailConflict(rows, rows[id], b) then Effect(Fail(409, EMAIL_TAKEN), rows)
    else
      var s := Merged(rows[id], b, hash);
      assert s.email == rows[id].email || !EmailInUse(rows, s.email);
      Effect(Ok(200, View(id, s)), rows[id := s])
  }

  /** Each of name, email, classId and cohortId takes the supplied value when
      truthy and keeps the stored one otherwise; an empty body changes nothing. */
  lemma UpdateMergesFields(rows: map<Id, Student>, id: Id, b: StudentBody, hash: string -> string)
    requires id in rows && !EmailConflict(rows, rows[id], b)
    ensures var t := UpdateEffect(rows, id, b, hash).rows[id];
            t.name == OrElse(b.name, rows[id].name) && t.email == OrElse(b.email, rows[id].email)
            && t.classId == OrElse(b.classId, rows[id].classId) && t.cohortId == OrElse(b.cohortId, rows[id].cohortId)
    ensures b == StudentBody(None, None, None, None, None) ==> UpdateEffect(rows, id, b, hash).rows == rows
  {
    if b == StudentBody(None, None, None, None, None) {
      assert Merged(rows[id], b, hash) == rows[id];
    }
  }

  /** `updateStudent`: loads the row, checks the e-mail change, assigns the
      fields one by one and saves. */
  method UpdateStudent(table: Table<Student>, id: Id, b: StudentBody, hash: string -> string)
    returns (r: Reply<StudentView>)
    modifies table
    ensures Effect(r, table.rows) == UpdateEffect(old(table.rows), id, b, hash)
  {
    if id !in table.rows {
      return Fail(404, NOT_FOUND);
    }
    var s := table.rows[id];
    if Truthy(b.email) && b.email.value != s.email {
      var existing := FindOne(table.rows, (t: Student) => t.email == b.email.value);
      if existing.Some? {
        return Fail(409, EMAIL_TAKEN);
      }
      s := s.(email := b.email.value);
    }
    s := s.(name := OrElse(b.name, s.name));
    s := s.(classId := OrElse(b.classId, s.classId));
    s := s.(cohortId := OrElse(b.cohortId, s.cohortId));
    if Truthy(b.password) {
      s := s.(password := hash(b.password.value));
    }
    table.Save(id, s);
    return Ok(200, View(id, s));
  }

  /** `updateProfile`: the same update, on the student whose key is the
      authenticated user's id. */
  method UpdateProfile(table: Table<Student>, who: Principal, b: StudentBody, hash: string -> string)
    returns (r: Reply<StudentView>)
    modifies table
    ensures Effect(r, table.rows) == UpdateEffect(old(table.rows), who.id, b, hash)
  {
    r := UpdateStudent(table, who.id, b, hash);
  }

  /** `deleteStudent`. */
  method DeleteStudent(table: Table<Student>, id: Id) returns (r: Reply<string>)
    modifies table
    ensures id !in old(table.rows) ==> r == Fail(404, NOT_FOUND) && table.rows == old(table.rows)
    ensures id in old(table.rows) ==> r == Ok(200, DELETED) && table.rows == old(table.rows) - {id}
  {
    if id !in table.rows {
      return Fail(404, NOT_FOUND);
    }
    table.Destroy(id);
    return Ok(200, DELETED);
  }
}
