/** controllers/moduleController.js with the `half` validation of the Module
    model: create, read by id, the "falsy keeps the old value" update, and
    deletion of modules. A store error carries the error's own text, which the
    model writes as `STORE_ERROR`. */
module ModuleController {
  import opened Common
  import opened Store

  /** The values the `half` column's `isIn` validator accepts. */
  const HALVES: set<string> := {"H1", "H2", "FT"}

  const NOT_FOUND := "Module not found"
  const DELETED := "Module deleted successfully"

  /** The module keys the controller reads from the body. */
  datatype ModuleBody = ModuleBody(name: Field, half: Field)

  /** Every stored module has a half the validator accepts. */
  predicate ValidHalves(rows: map<Id, CourseModule>) {
    forall k :: k in rows ==> rows[k].half in HALVES
  }

  /** `createModule` with `newId` the generated key: a NOT NULL or `isIn`
      failure ends in the 400 of the catch. */
  function CreateEffect(rows: map<Id, CourseModule>, b: ModuleBody, newId: Id)
    : (e: Effect<CourseModule, CourseModule>)
    ensures e.reply.Fail? ==> e == Effect(Fail(400, STORE_ERROR), rows)
    ensures e.reply.Ok? <==> b.name.Some? && b.half.Some? && b.half.value in HALVES && newId !in rows
    ensures e.reply.Ok? ==> e.rows == rows[newId := CourseModule(b.name.value, b.half.value)]
                            && e.reply == Ok(201, e.rows[newId])
    ensures ValidHalves(rows) ==> ValidHalves(e.rows)
  {
    if b.name.None? || b.half.None? || b.half.value !in HALVES || newId in rows
    then Effect(Fail(400, STORE_ERROR), rows)
    else
      var m := CourseModule(b.name.value, b.half.value);
      Effect(Ok(201, m), rows[newId := m])
  }

  /** `createModule`. */
  method CreateModule(table: Table<CourseModule>, b: ModuleBody, newId: Id) returns (r: Reply<CourseModule>)
    modifies table
    ensures Effect(r, table.rows) == CreateEffect(old(table.rows), b, newId)
  {
    if b.name.None? || b.half.None? || b.half.value !in HALVES {
      return Fail(400, STORE_ERROR);
    }
    var m := CourseModule(b.name.value, b.half.value);
    var ok := table.Create(newId, m);
    if !ok {
      return Fail(400, STORE_ERROR);
    }
    return Ok(201, m);
  }

  /** `getModuleById`: the by-key read of `Store.FindByPk`. */
  function GetModuleById(rows: map<Id, CourseModule>, id: Id): Reply<CourseModule> {
    FindByPk(rows, id, NOT_FOUND)
  }

  /** `updateModule` on module `id`: the validator runs again on `save`, so a
      truthy half outside the accepted values is a 400 and nothing is saved. */
  function UpdateEffect(rows: map<Id, CourseModule>, id: Id, b: ModuleBody): (e: Effect<CourseModule, CourseModule>)
    ensures id !in rows ==> e == Effect(Fail(404, NOT_FOUND), rows)
    ensures e.reply.Fail? ==> e.rows == rows
    ensures id in rows && Truthy(b.half) && b.half.value !in HALVES ==> e == Effect(Fail(400, STORE_ERROR), rows)
    ensures e.reply.Ok? ==>
              id in rows && e.rows.Keys == rows.Keys && (forall k :: k in rows && k != id ==> e.rows[k] == rows[k])
              && e.rows[id].name == OrElse(b.name, rows[id].name)
              && e.rows[id].half == OrElse(b.half, rows[id].half)
              && e.reply == Ok(200, e.rows[id])
    // On a table of valid modules the update fails only for a missing id or a bad half.
    ensures ValidHalves(rows) ==> (e.reply.Ok? <==> id in rows && !(Truthy(b.half) && b.half.value !in HALVES))
    ensures ValidHalves(rows) ==> ValidHalves(e.rows)
  {
    if id !in rows then Effect(Fail(404, NOT_FOUND), rows)
    else
      var m := CourseModule(OrElse(b.name, rows[id].name), OrElse(b.half, rows[id].half));
      if m.half !in HALVES then Effect(Fail(400, STORE_ERROR), rows)
      else Effect(Ok(200, m), rows[id := m])
  }

  /** A body with neither a truthy name nor a truthy half leaves a valid module as it was. */
  lemma EmptyUpdateChangesNothing(rows: map<Id, CourseModule>, id: Id, b: ModuleBody)
    requires ValidHalves(rows) && id in rows
    requires !Truthy(b.name) && !Truthy(b.half)
    ensures UpdateEffect(rows, id, b) == Effect(Ok(200, rows[id]), rows)
  {
    assert CourseModule(rows[id].name, rows[id].half) == rows[id];
  }

  /** `updateModule`: assigns the two fields on the loaded row, then saves. */
  method UpdateModule(table: Table<CourseModule>, id: Id, b: ModuleBody) returns (r: Reply<CourseModule>)
    modifies table
    ensures Effect(r, table.rows) == UpdateEffect(old(table.rows), id, b)
  {
    if id !in table.rows {
      return Fail(404, NOT_FOUND);
    }
    var m := table.rows[id];
    m := m.(name := OrElse(b.name, m.name));
    m := m.(half := OrElse(b.half, m.half));
    if m.half !in HALVES {
      return Fail(400, STORE_ERROR);
    }
    table.Save(id, m);
    return Ok(200, m);
  }

  /** `deleteModule`. */
  method DeleteModule(table: Table<CourseModule>, id: Id) returns (r: Reply<string>)
    modifies table
    ensures id !in old(table.rows) ==> r == Fail(404, NOT_FOUND) && table.rows == old(table.rows)
    ensures id in old(table.rows) ==> r == Ok(200, DELETED) && table.rows == old(table.rows) - {id}
    ensures ValidHalves(old(table.rows)) ==> ValidHalves(table.rows)
  {
    if id !in table.rows {
      return Fail(404, NOT_FOUND);
    }
    table.Destroy(id);
    return Ok(200, DELETED);
  }
}
