/** controllers/classController.js: create, read by id, the "falsy keeps the
    old value" update, and deletion of classes. A store error carries the
    error's own text, which the model writes as `STORE_ERROR`. */
module ClassController {
  import opened Common
  import opened Store

  const NOT_FOUND := "Class not found"
  const DELETED := "Class deleted successfully"

  /** The class keys `createClass` and `updateClass` read from the body; any
      other key is ignored. */
  datatype ClassBody = ClassBody(name: Field, startDate: Field, graduationDate: Field)

  /** `createClass` with `newId` the generated key. Each column is NOT NULL,
      so an omitted one fails in the store and ends in the 400 of the catch. */
  function CreateEffect(rows: map<Id, CourseClass>, b: ClassBody, newId: Id): (e: Effect<CourseClass, CourseClass>)
    ensures e.reply.Fail? ==> e == Effect(Fail(400, STORE_ERROR), rows)
    ensures e.reply.Ok? <==> b.name.Some? && b.startDate.Some? && b.graduationDate.Some? && newId !in rows
    ensures e.reply.Ok? ==>
              e.rows == rows[newId := CourseClass(b.name.value, b.startDate.value, b.graduationDate.value)]
              && e.reply == Ok(201, e.rows[newId])
  {
    if b.name.None? || b.startDate.None? || b.graduationDate.None? || newId in rows
    then Effect(Fail(400, STORE_ERROR), rows)
    else
      var c := CourseClass(b.name.value, b.startDate.value, b.graduationDate.value);
      Effect(Ok(201, c), rows[newId := c])
  }

  /** `createClass`. */
  method CreateClass(table: Table<CourseClass>, b: ClassBody, newId: Id) returns (r: Reply<CourseClass>)
    modifies table
    ensures Effect(r, table.rows) == CreateEffect(old(table.rows), b, newId)
  {
    if b.name.None? || b.startDate.None? || b.graduationDate.None? {
      return Fail(400, STORE_ERROR);
    }
    var c := CourseClass(b.name.value, b.startDate.value, b.graduationDate.value);
    var ok := table.Create(newId, c);
    if !ok {
      return Fail(400, STORE_ERROR);
    }
    return Ok(201, c);
  }

  /** `getClassById`: the by-key read of `Store.FindByPk`. */
  function GetClassById(rows: map<Id, CourseClass>, id: Id): Reply<CourseClass> {
    FindByPk(rows, id, NOT_FOUND)
  }

  /** The class after the three assignments of `updateClass`. */
  function Merged(c: CourseClass, b: ClassBody): (m: CourseClass)
    ensures Truthy(b.name) ==> m.name == b.name.value
    ensures !Truthy(b.name) ==> m.name == c.name
    ensures Truthy(b.startDate) ==> m.startDate == b.startDate.value
    ensures !Truthy(b.startDate) ==> m.startDate == c.startDate
    ensures Truthy(b.graduationDate) ==> m.graduationDate == b.graduationDate.value
    ensures !Truthy(b.graduationDate) ==> m.graduationDate == c.graduationDate
  {
    CourseClass(OrElse(b.name, c.name), OrElse(b.startDate, c.startDate), OrElse(b.graduationDate, c.graduationDate))
  }

  /** Merging twice with the same body is merging once; a body with no truthy
      field leaves the class as it was. */
  lemma MergedIdempotent(c: CourseClass, b: ClassBody)
    ensures Merged(Merged(c, b), b) == Merged(c, b)
    ensures !Truthy(b.name) && !Truthy(b.startDate) && !Truthy(b.graduationDate) ==> Merged(c, b) == c
  {
  }

  /** `updateClass`: assigns the three fields on the loaded row, then saves. */
  method UpdateClass(table: Table<CourseClass>, id: Id, b: ClassBody) returns (r: Reply<CourseClass>)
    modifies table
    ensures id !in old(table.rows) ==> r == Fail(404, NOT_FOUND) && table.rows == old(table.rows)
    ensures id in old(table.rows) ==>
              table.rows == old(table.rows)[id := Merged(old(table.rows)[id], b)] && r == Ok(200, table.rows[id])
  {
    if id !in table.rows {
      return Fail(404, NOT_FOUND);
    }
    var c := table.rows[id];
    c := c.(name := OrElse(b.name, c.name));
    c := c.(startDate := OrElse(b.startDate, c.startDate));
    c := c.(graduationDate := OrElse(b.graduationDate, c.graduationDate));
    table.Save(id, c);
    return Ok(200, c);
  }

  /** `deleteClass`. */
  method DeleteClass(table: Table<CourseClass>, id: Id) returns (r: Reply<string>)
    modifies table
    ensures id !in old(table.rows) ==> r == Fail(404, NOT_FOUND) && table.rows == old(table.rows)
    ensures id in old(table.rows) ==> r == Ok(200, DELETED) && table.rows == old(table.rows) - {id}
  {
    if id !in table.rows {
      return Fail(404, NOT_FOUND);
    }
    table.Destroy(id);
    return Ok(200, DELETED);
  }
}
