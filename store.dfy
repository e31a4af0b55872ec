/** The relational store as the controllers see it: one keyed table per model,
    each a map from primary key to record, with the ORM calls the controllers
    make (`create`, `save`/`update`, `destroy`, `findOne`, `findAll`). */
module Store {
  import opened Common

  /** A row of `users`: the login identity and its role claim. */
  datatype User = User(email: string, password: string, role: string, name: string)

  /** A student as controllers/studentController.js reads and writes it. */
  datatype Student = Student(name: string, email: string, password: string, classId: Id, cohortId: Id)

  /** A facilitator as controllers/facilitatorController.js and the log controller use it. */
  datatype Facilitator = Facilitator(
    userId: Id, name: string, email: string, password: string,
    qualification: string, location: string, managerId: Id)

  /** A manager as controllers/managerController.js uses it. */
  datatype Manager = Manager(userId: Id, name: string, email: string, password: string)

  /** A row of `classes`. */
  datatype CourseClass = CourseClass(name: string, startDate: string, graduationDate: string)

  /** A row of `modules`. */
  datatype CourseModule = CourseModule(name: string, half: string)

  /** A row of `allocations`: one facilitator teaching one module to one class. */
  datatype Allocation = Allocation(
    moduleId: Id, classId: Id, facilitatorId: Id, modeId: Id, trimester: string, year: string)

  /** A row of `activity_logs` with its six status columns. */
  datatype ActivityLog = ActivityLog(
    allocationId: Id, week: int, attendance: seq<string>,
    formativeOneGrading: string, formativeTwoGrading: string, summativeGrading: string,
    courseModeration: string, intranetSync: string, gradeBookStatus: string)

  /** The role profile that registration creates: the owning user and the optional extra data. */
  datatype RoleProfile = RoleProfile(userId: Id, extraData: map<string, string>)

  /** The columns of `allocations` a request may filter on. */
  datatype AllocationColumn = ModuleId | ClassId | FacilitatorId | ModeId | Trimester | Year

  /** The value of one column of an allocation. */
  function ColumnValue(a: Allocation, c: AllocationColumn): string {
    match c
    case ModuleId => a.moduleId
    case ClassId => a.classId
    case FacilitatorId => a.facilitatorId
    case ModeId => a.modeId
    case Trimester => a.trimester
    case Year => a.year
  }

  /** The facilitator row `facilitatorId` belongs to the user `userId`. */
  predicate Owns(facilitators: map<Id, Facilitator>, userId: Id, facilitatorId: Id) {
    facilitatorId in facilitators && facilitators[facilitatorId].userId == userId
  }

  /** At most one facilitator row belongs to `userId`, so `Facilitator.findOne({ where: { userId } })`
      has no choice to make. */
  predicate SoleProfile(facilitators: map<Id, Facilitator>, userId: Id) {
    forall a, b ::
      (a in facilitators && b in facilitators && facilitators[a].userId == userId
       && facilitators[b].userId == userId) ==> a == b
  }

  /** Stands for the store's own `error.message`, which a catch block returns as is. */
  const STORE_ERROR := "store error"

  /** What a request does to one table: its reply and the table's rows afterwards. */
  datatype Effect<T, R> = Effect(reply: Reply<T>, rows: map<Id, R>)

  /** No two rows agree on `key`. */
  predicate UniqueBy<R>(rows: map<Id, R>, key: R -> string) {
    forall j, k :: j in rows && k in rows && key(rows[j]) == key(rows[k]) ==> j == k
  }

  /** Some row of `rows` satisfies `p` (what `findOne` tests). */
  predicate AnyRow<R>(rows: map<Id, R>, p: R -> bool) {
    exists k :: k in rows && p(rows[k])
  }

  /** `Model.findOne({ where })`: some row satisfying the condition, or none.
      Which row is returned when several match is up to the store. */
  method FindOne<R>(rows: map<Id, R>, p: R -> bool) returns (found: Option<Id>)
    ensures found.None? <==> !AnyRow(rows, p)
    ensures found.Some? ==> found.value in rows && p(rows[found.value])
  {
    if AnyRow(rows, p) {
      var k :| k in rows && p(rows[k]);
      found := Some(k);
    } else {
      found := None;
    }
  }

  /** `Model.findAll({ where })`: exactly the rows satisfying the condition. */
  function FindAll<R>(rows: map<Id, R>, p: R -> bool): (r: map<Id, R>)
    ensures forall k :: k in r <==> k in rows && p(rows[k])
    ensures forall k :: k in r ==> r[k] == rows[k]
  {
    map k | k in rows && p(rows[k]) :: rows[k]
  }

  /** `findByPk` answered as the by-id reads answer it: the row with 200, or a
      404 with the model's own "not found" message. */
  function FindByPk<R>(rows: map<Id, R>, id: Id, notFound: string): (r: Reply<R>)
    ensures r.Fail? <==> id !in rows
    ensures r.Fail? ==> r == Fail(404, notFound)
    ensures r.Ok? ==> r == Ok(200, rows[id])
  {
    if id !in rows then Fail(404, notFound) else Ok(200, rows[id])
  }

  /** One table of the store. */
  class Table<R> {
    var rows: map<Id, R>

    constructor (initial: map<Id, R>)
      ensures rows == initial
    {
      rows := initial;
    }

    /** `Model.create` under the generated primary key `id`. A key already
        present violates the primary key and nothing is written. */
    method Create(id: Id, r: R) returns (ok: bool)
      modifies this
      ensures ok <==> id !in old(rows)
      ensures rows == if ok then old(rows)[id := r] else old(rows)
    {
      ok := id !in rows;
      if ok {
        rows := rows[id := r];
      }
    }

    /** `instance.save()` / `instance.update(...)` of a row read earlier. */
    method Save(id: Id, r: R)
      requires id in rows
      modifies this
      ensures rows == old(rows)[id := r]
    {
      rows := rows[id := r];
    }

    /** `instance.destroy()` of a row read earlier. */
    method Destroy(id: Id)
      requires id in rows
      modifies this
      ensures rows == old(rows) - {id}
    {
      rows := rows - {id};
    }
  }
}
