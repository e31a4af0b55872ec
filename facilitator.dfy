/** controllers/facilitatorController.js: creating, updating (by the
    facilitator or by id) and deleting facilitators with the e-mail uniqueness
    guard. `bcrypt.hash` is the parameter `hash`. */
module FacilitatorController {
  import opened Common
  import opened Store

  const EMAIL_EXISTS := "Facilitator with this email already exists"
  const EMAIL_TAKEN := "Email already in use"
  const NOT_FOUND := "Facilitator not found"
  const CREATE_FAILED := "Error creating facilitator"
  const DELETED := "Facilitator deleted successfully"

  /** The facilitator keys of a request body. */
  datatype FacilitatorBody = FacilitatorBody(
    name: Field, email: Field, password: Field, qualification: Field, location: Field, managerId: Field)

  /** The reply of `updateProfile`: no password, no managerId. */
  datatype ProfileView = ProfileView(id: Id, name: string, email: string, qualification: string, location: string)

  function Email(f: Facilitator): string {
    f.email
  }

  predicate EmailInUse(rows: map<Id, Facilitator>, email: string) {
    AnyRow(rows, (f: Facilitator) => f.email == email)
  }

  /** The e-mail change the request asks for is taken. */
  predicate EmailConflict(rows: map<Id, Facilitator>, f: Facilitator, b: FacilitatorBody) {
    Truthy(b.email) && b.email.value != f.email && EmailInUse(rows, b.email.value)
  }

  /** The stored password after an update: rehashed only when one is supplied. */
  function NewPassword(current: string, supplied: Field, hash: string -> string): string {
    if Truthy(supplied) then hash(supplied.value) else current
  }

  // ---------------------------------------------------------------------------
  // createFacilitator

  /** `createFacilitator` with `newId` the generated key; the row gets no
      `userId`, which the model records as the empty id. An omitted email,
      password or column ends in the 500 of the catch. */
  function CreateEffect(rows: map<Id, Facilitator>, b: FacilitatorBody, hash: string -> string, newId: Id)
    : (e: Effect<Facilitator, Facilitator>)
    ensures e.reply.Fail? ==> e.rows == rows && e.reply.status in {400, 500}
    ensures e.reply == Fail(400, EMAIL_EXISTS) <==> b.email.Some? && EmailInUse(rows, b.email.value)
    ensures e.reply.Ok? <==> b.name.Some? && b.email.Some? && b.password.Some? && b.qualification.Some?
                             && b.location.Some? && b.managerId.Some? && !EmailInUse(rows, b.email.value)
                             && newId !in rows
    ensures e.reply.Ok? ==> e.rows.Keys == rows.Keys + {newId} && e.reply == Ok(201, e.rows[newId])
                            && e.rows[newId] == Facilitator("", b.name.value, b.email.value, hash(b.password.value),
                                                            b.qualification.value, b.location.value, b.managerId.value)
                            && forall k :: k in rows ==> e.rows[k] == rows[k]
    ensures UniqueBy(rows, Email) ==> UniqueBy(e.rows, Email)
  {
    if b.email.None? then Effect(Fail(500, CREATE_FAILED), rows)
    else if EmailInUse(rows, b.email.value) then Effect(Fail(400, EMAIL_EXISTS), rows)
    else if b.password.None? || b.name.None? || b.qualification.None? || b.location.None?
            || b.managerId.None? || newId in rows
    then Effect(Fail(500, CREATE_FAILED), rows)
    else
      var f := Facilitator("", b.name.value, b.email.value, hash(b.password.value),
                           b.qualification.value, b.location.value, b.managerId.value);
      assert forall k :: k in rows ==> rows[k].email != f.email;
      Effect(Ok(201, f), rows[newId := f])
  }

  /** `createFacilitator`. */
  method CreateFacilitator(table: Table<Facilitator>, b: FacilitatorBody, hash: string -> string, newId: Id)
    returns (r: Reply<Facilitator>)
    modifies table
    ensures Effect(r, table.rows) == CreateEffect(old(table.rows), b, hash, newId)
  {
    if b.email.None? {
      return Fail(500, CREATE_FAILED);
    }
    var existing := FindOne(table.rows, (f: Facilitator) => f.email == b.email.value);
    if existing.Some? {
      return Fail(400, EMAIL_EXISTS);
    }
    if b.password.None? || b.name.None? || b.qualification.None? || b.location.None? || b.managerId.None? {
      return Fail(500, CREATE_FAILED);
    }
    var f := Facilitator("", b.name.value, b.email.value, hash(b.password.value),
                         b.qualification.value, b.location.value, b.managerId.value);
    var ok := table.Create(newId, f);
    if !ok {
      return Fail(500, CREATE_FAILED);
    }
    return Ok(201, f);
  }

  // ---------------------------------------------------------------------------
  // updateProfile

  /** `updateProfile` on the facilitator whose key is the authenticated user's id. */
  function ProfileEffect(rows: map<Id, Facilitator>, id: Id, b: FacilitatorBody, hash: string -> string)
    : (e: Effect<ProfileView, Facilitator>)
    ensures id !in rows ==> e == Effect(Fail(404, NOT_FOUND), rows)
    ensures id in rows && EmailConflict(rows, rows[id], b) ==> e == Effect(Fail(400, EMAIL_TAKEN), rows)
    ensures e.reply.Ok? <==> id in rows && !EmailConflict(rows, rows[id], b)
    ensures e.reply.Ok? ==>
              e.rows.Keys == rows.Keys && (forall k :: k in rows && k != id ==> e.rows[k] == rows[k])
              && var f := e.rows[id];
              && f.name == OrElse(b.name, rows[id].name) && f.email == OrElse(b.email, rows[id].email)
              && f.qualification == OrElse(b.qualification, rows[id].qualification)
              && f.location == OrElse(b.location, rows[id].location)
              && f.password == NewPassword(rows[id].password, b.password, hash)
              // The profile update cannot move a facilitator to another manager or user.
              && f.managerId == rows[id].managerId && f.userId == rows[id].userId
              && e.reply == Ok(200, ProfileView(id, f.name, f.email, f.qualification, f.location))
    ensures UniqueBy(rows, Email) ==> UniqueBy(e.rows, Email)
  {
    if id !in rows then Effect(Fail(404, NOT_FOUND), rows)
    else if EmailConflict(rows, rows[id], b) then Effect(Fail(400, EMAIL_TAKEN), rows)
    else
      var g := rows[id];
      var f := g.(name := OrElse(b.name, g.name), email := OrElse(b.email, g.email),
                  qualification := OrElse(b.qualification, g.qualification),
                  location := OrElse(b.location, g.location),
                  password := NewPassword(g.password, b.password, hash));
      assert f.email == g.email || !EmailInUse(rows, f.email);
      Effect(Ok(200, ProfileView(id, f.name, f.email, f.qualification, f.location)), rows[id := f])
  }

  /** `updateProfile`: assigns the fields on the loaded row, then saves. */
  method UpdateProfile(table: Table<Facilitator>, who: Principal, b: FacilitatorBody, hash: string -> string)
    returns (r: Reply<ProfileView>)
    modifies table
    ensures Effect(r, table.rows) == ProfileEffect(old(table.rows), who.id, b, hash)
  {
    var id := who.id;
    if id !in table.rows {
      return Fail(404, NOT_FOUND);
    }
    var f := table.rows[id];
    if Truthy(b.email) && b.email.value != f.email {
      var existing := FindOne(table.rows, (g: Facilitator) => g.email == b.email.value);
      if existing.Some? {
        return Fail(400, EMAIL_TAKEN);
      }
      f := f.(email := b.email.value);
    }
    f := f.(name := OrElse(b.name, f.name));
    f := f.(qualification := OrElse(b.qualification, f.qualification));
    f := f.(location := OrElse(b.location, f.location));
    if Truthy(b.password) {
      f := f.(password := hash(b.password.value));
    }
    table.Save(id, f);
    return Ok(200, ProfileView(id, f.name, f.email, f.qualification, f.location));
  }

  // ---------------------------------------------------------------------------
  // updateFacilitator

  /** The `updatedFields` object of `updateFacilitator`, applied to the row. */
  function Updated(f: Facilitator, b: FacilitatorBody, hash: string -> string): Facilitator {
    f.(name := OrElse(b.name, f.name), email := OrElse(b.email, f.email),
       qualification := OrElse(b.qualification, f.qualification), location := OrElse(b.location, f.location),
       managerId := OrElse(b.managerId, f.managerId), password := NewPassword(f.password, b.password, hash))
  }

  /** `updateFacilitator` on facilitator `id`. */
  function UpdateEffect(rows: map<Id, Facilitator>, id: Id, b: FacilitatorBody, hash: string -> string)
    : (e: Effect<Facilitator, Facilitator>)
    ensures id !in rows ==> e == Effect(Fail(404, NOT_FOUND), rows)
    ensures id in rows && EmailConflict(rows, rows[id], b) ==> e == Effect(Fail(400, EMAIL_TAKEN), rows)
    ensures e.reply.Ok? <==> id in rows && !EmailConflict(rows, rows[id], b)
    ensures e.reply.Ok? ==> e.rows.Keys == rows.Keys && (forall k :: k in rows && k != id ==> e.rows[k] == rows[k])
                            && e.reply == Ok(200, e.rows[id])
                            // The row keeps its user; each column takes the value supplied, if truthy.
                            && e.rows[id] == Updated(rows[id], b, hash) && e.rows[id].userId == rows[id].userId
    ensures UniqueBy(rows, Email) ==> UniqueBy(e.rows, Email)
  {
    if id !in rows then Effect(Fail(404, NOT_FOUND), rows)
    else if EmailConflict(rows, rows[id], b) then Effect(Fail(400, EMAIL_TAKEN), rows)
    else
      var f := Updated(rows[id], b, hash);
      assert f.email == rows[id].email || !EmailInUse(rows, f.email);
      Effect(Ok(200, f), rows[id := f])
  }

  /** A second identical update changes nothing more, except a password, which
      is hashed again; an update with no truthy field changes nothing. */
  lemma UpdateIdempotent(f: Facilitator, b: FacilitatorBody, hash: string -> string)
    ensures !Truthy(b.password) ==> Updated(Updated(f, b, hash), b, hash) == Updated(f, b, hash)
    ensures b == FacilitatorBody(None, None, None, None, None, None) ==> Updated(f, b, hash) == f
  {
  }

  /** `updateFacilitator`: builds `updatedFields`, then `facilitator.update(updatedFields)`. */
  method UpdateFacilitator(table: Table<Facilitator>, id: Id, b: FacilitatorBody, hash: string -> string)
    returns (r: Reply<Facilitator>)
    modifies table
    ensures Effect(r, table.rows) == UpdateEffect(old(table.rows), id, b, hash)
  {
    if id !in table.rows {
      return Fail(404, NOT_FOUND);
    }
    var f := table.rows[id];
    if Truthy(b.email) && b.email.value != f.email {
      var existing := FindOne(table.rows, (g: Facilitator) => g.email == b.email.value);
      if existing.Some? {
        return Fail(400, EMAIL_TAKEN);
      }
    }
    var updated := Updated(f, b, hash);
    table.Save(id, updated);
    return Ok(200, updated);
  }

  /** `deleteFacilitator`. */
  method DeleteFacilitator(table: Table<Facilitator>, id: Id) returns (r: Reply<string>)
    modifies table
    ensures id !in old(table.rows) ==> r == Fail(404, NOT_FOUND) && table.rows == old(table.rows)
    ensures id in old(table.rows) ==> r == Ok(200, DELETED) && table.rows == old(table.rows) - {id}
  {
    if id !in table.rows {
      return Fail(404, NOT_FOUND);
    }
    table.Destroy(id);
    return Ok(200, DELETED);
  }
}
