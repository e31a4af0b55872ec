/** controllers/managerController.js: creating managers with the e-mail guard,
    password-free reads, the "falsy keeps the old value" update and deletion.
    `bcrypt.hash` is the parameter `hash`. */
module ManagerController {
  import opened Common
  import opened Store

  const EMAIL_EXISTS := "Manager already exists with this email."
  const CREATE_FAILED := "Failed to create manager"
  const NOT_FOUND := "Manager not found"
  const UPDATED := "Manager updated successfully"
  const DELETED := "Manager deleted successfully"

  /** The manager keys of a request body. */
  datatype ManagerBody = ManagerBody(name: Field, email: Field, password: Field)

  /** A manager as the reads show it: every column but the password. */
  datatype ManagerView = ManagerView(id: Id, userId: Id, name: string, email: string)

  function View(id: Id, m: Manager): ManagerView {
    ManagerView(id, m.userId, m.name, m.email)
  }

  function Email(m: Manager): string {
    m.email
  }

  predicate EmailInUse(rows: map<Id, Manager>, email: string) {
    AnyRow(rows, (m: Manager) => m.email == email)
  }

  // ---------------------------------------------------------------------------
  // createManager

  /** `createManager` with `newId` the generated key; the row gets no `userId`,
      which the model records as the empty id. An omitted email makes `findOne`
      throw, an omitted password makes `hash` throw, an omitted name fails the
      NOT NULL check: all end in the 500 of the catch. */
  function CreateEffect(rows: map<Id, Manager>, b: ManagerBody, hash: string -> string, newId: Id)
    : (e: Effect<Manager, Manager>)
    ensures e.reply.Fail? ==> e.rows == rows
    ensures e.reply.Fail? ==> e.reply == Fail(400, EMAIL_EXISTS) || e.reply == Fail(500, CREATE_FAILED)
    ensures e.reply == Fail(400, EMAIL_EXISTS) <==> b.email.Some? && EmailInUse(rows, b.email.value)
    ensures e.reply.Ok? <==> b.name.Some? && b.email.Some? && b.password.Some?
                             && !EmailInUse(rows, b.email.value) && newId !in rows
    ensures e.reply.Ok? ==> e.rows.Keys == rows.Keys + {newId} && e.reply == Ok(201, e.rows[newId])
                            && e.rows[newId] == Manager("", b.name.value, b.email.value, hash(b.password.value))
                            && forall k :: k in rows ==> e.rows[k] == rows[k]
    ensures UniqueBy(rows, Email) ==> UniqueBy(e.rows, Email)
  {
    if b.email.None? then Effect(Fail(500, CREATE_FAILED), rows)
    else if EmailInUse(rows, b.email.value) then Effect(Fail(400, EMAIL_EXISTS), rows)
    else if b.password.None? || b.name.None? || newId in rows then Effect(Fail(500, CREATE_FAILED), rows)
    else
      var m := Manager("", b.name.value, b.email.value, hash(b.password.value));
      assert forall k :: k in rows ==> rows[k].email != m.email;
      Effect(Ok(201, m), rows[newId := m])
  }

  /** `createManager`. */
  method CreateManager(table: Table<Manager>, b: ManagerBody, hash: string -> string, newId: Id)
    returns (r: Reply<Manager>)
    modifies table
    ensures Effect(r, table.rows) == CreateEffect(old(table.rows), b, hash, newId)
  {
    if b.email.None? {
      return Fail(500, CREATE_FAILED);
    }
    var existing := FindOne(table.rows, (m: Manager) => m.email == b.email.value);
    if existing.Some? {
      return Fail(400, EMAIL_EXISTS);
    }
    if b.password.None? {
      return Fail(500, CREATE_FAILED);
    }
    var hashed := hash(b.password.value);
    if b.name.None? {
      return Fail(500, CREATE_FAILED);
    }
    var m := Manager("", b.name.value, b.email.value, hashed);
    var ok := table.Create(newId, m);
    if !ok {
      return Fail(500, CREATE_FAILED);
    }
    return Ok(201, m);
  }

  // ---------------------------------------------------------------------------
  // getAllManagers and getManagerById

  /** `getAllManagers`: every manager, none with its password. */
  function GetAllManagers(rows: map<Id, Manager>): (views: map<Id, ManagerView>)
    ensures views.Keys == rows.Keys
    ensures forall k :: k in rows ==> views[k].id == k && views[k].name == rows[k].name
                                      && views[k].email == rows[k].email && views[k].userId == rows[k].userId
  {
    map k | k in rows :: View(k, rows[k])
  }

  /** `getManagerById`. */
  function GetManagerById(rows: map<Id, Manager>, id: Id): (r: Reply<ManagerView>)
    ensures r.Fail? <==> id !in rows
    ensures r.Fail? ==> r == Fail(404, NOT_FOUND)
    ensures r.Ok? ==> r.status == 200 && r.data.id == id && r.data.name == rows[id].name
                      && r.data.email == rows[id].email && r.data.userId == rows[id].userId
  {
    if id !in rows then Fail(404, NOT_FOUND) else Ok(200, View(id, rows[id]))
  }

  /** A read shows the same manager whichever of the two reads is used. */
  lemma ReadsAgree(rows: map<Id, Manager>, id: Id)
    requires id in rows
    ensures GetManagerById(rows, id) == Ok(200, GetAllManagers(rows)[id])
  {
  }

  // ---------------------------------------------------------------------------
  // updateManager

  /** `updateManager` on manager `id`: no e-mail check, and only a message back. */
  function UpdateEffect(rows: map<Id, Manager>, id: Id, b: ManagerBody, hash: string -> string)
    : (e: Effect<string, Manager>)
    ensures id !in rows ==> e == Effect(Fail(404, NOT_FOUND), rows)
    ensures id in rows ==> e.reply == Ok(200, UPDATED)
    ensures id in rows ==>
              e.rows.Keys == rows.Keys && (forall k :: k in rows && k != id ==> e.rows[k] == rows[k])
              && e.rows[id].name == OrElse(b.name, rows[id].name)
              && e.rows[id].email == OrElse(b.email, rows[id].email)
              && e.rows[id].userId == rows[id].userId
    // The password changes only when one is supplied, and is stored hashed.
    ensures id in rows ==>
              e.rows[id].password == if Truthy(b.password) then hash(b.password.value) else rows[id].password
  {
    if id !in rows then Effect(Fail(404, NOT_FOUND), rows)
    else
      var m := rows[id];
      var updated := m.(name := OrElse(b.name, m.name), email := OrElse(b.email, m.email),
                        password := if Truthy(b.password) then hash(b.password.value) else m.password);
      Effect(Ok(200, UPDATED), rows[id := updated])
  }

  /** An update whose body has no truthy field leaves the table as it was. */
  lemma EmptyUpdateChangesNothing(rows: map<Id, Manager>, id: Id, b: ManagerBody, hash: string -> string)
    requires !Truthy(b.name) && !Truthy(b.email) && !Truthy(b.password)
    ensures UpdateEffect(rows, id, b, hash).rows == rows
  {
    if id in rows {
      var e := UpdateEffect(rows, id, b, hash);
      assert e.rows[id] == rows[id];
    }
  }

  /** Unlike the other profile updates, `updateManager` does not check the new
      e-mail: it can give a manager the e-mail of another, so the table no
      longer has unique e-mails. */
  lemma UpdateCanDuplicateEmail(rows: map<Id, Manager>, id: Id, other: Id, b: ManagerBody, hash: string -> string)
    requires id in rows && other in rows && id != other
    requires b.email == Some(rows[other].email) && rows[other].email != ""
    ensures UpdateEffect(rows, id, b, hash).reply.Ok?
    ensures !UniqueBy(UpdateEffect(rows, id, b, hash).rows, Email)
  {
    var after := UpdateEffect(rows, id, b, hash).rows;
    assert Email(after[id]) == Email(after[other]);
  }

  /** `updateManager`: assigns the fields on the loaded row, then saves. */
  method UpdateManager(table: Table<Manager>, id: Id, b: ManagerBody, hash: string -> string)
    returns (r: Reply<string>)
    modifies table
    ensures Effect(r, table.rows) == UpdateEffect(old(table.rows), id, b, hash)
  {
    if id !in table.rows {
      return Fail(404, NOT_FOUND);
    }
    var m := table.rows[id];
    m := m.(name := OrElse(b.name, m.name));
    m := m.(email := OrElse(b.email, m.email));
    if Truthy(b.password) {
      m := m.(password := hash(b.password.value));
    }
    table.Save(id, m);
    return Ok(200, UPDATED);
  }

  /** `deleteManager`. */
  method DeleteManager(table: Table<Manager>, id: Id) returns (r: Reply<string>)
    modifies table
    ensures id !in old(table.rows) ==> r == Fail(404, NOT_FOUND) && table.rows == old(table.rows)
    ensures id in old(table.rows) ==> r == Ok(200, DELETED) && table.rows == old(table.rows) - {id}
  {
    if id !in table.rows {
      return Fail(404, NOT_FOUND);
    }
    table.Destroy(id);
    return Ok(200, DELETED);
  }
}
