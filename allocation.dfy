/** controllers/allocationController.js: the validation chain of
    `createAllocation`, the merge of `updateAllocation`, the facilitator-scoped
    reads and `filterAllocations`. */
module AllocationController {
  import opened Common
  import opened Store

  const MANAGER_ROLE := "manager"

  /** The trimesters `createAllocation` accepts. */
  const TRIMESTERS: set<string> := {"HT1", "HT2", "FT"}

  const MISSING_FIELDS := "Missing required fields: moduleId, classId, facilitatorId, modeId, trimester, year"
  const BAD_TRIMESTER := "Invalid trimester. Must be one of: HT1, HT2, FT"
  const BAD_YEAR := "Invalid year format. Must be a 4-digit year"
  const DUPLICATE := "Allocation already exists for this module, class, facilitator, trimester, and year combination"
  const NOT_FOUND := "Allocation not found"
  const ACCESS_DENIED := "Access denied"
  const DELETED := "Allocation deleted successfully"

  /** The six allocation keys of a request body or query string. */
  datatype AllocationFields = AllocationFields(
    moduleId: Field, classId: Field, facilitatorId: Field, modeId: Field, trimester: Field, year: Field)

  /** The value `fields` gives for column `c`. */
  function Param(fields: AllocationFields, c: AllocationColumn): Field {
    match c
    case ModuleId => fields.moduleId
    case ClassId => fields.classId
    case FacilitatorId => fields.facilitatorId
    case ModeId => fields.modeId
    case Trimester => fields.trimester
    case Year => fields.year
  }

  predicate AllTruthy(b: AllocationFields) {
    Truthy(b.moduleId) && Truthy(b.classId) && Truthy(b.facilitatorId)
    && Truthy(b.modeId) && Truthy(b.trimester) && Truthy(b.year)
  }

  /** `/^\d{4}$/.test(year)`: exactly four ASCII digits. */
  predicate FourDigits(s: string) {
    |s| == 4 && forall i :: 0 <= i < 4 ==> '0' <= s[i] <= '9'
  }

  /** The record a complete body describes. */
  function Record(b: AllocationFields): Allocation
    requires AllTruthy(b)
  {
    Allocation(b.moduleId.value, b.classId.value, b.facilitatorId.value, b.modeId.value,
               b.trimester.value, b.year.value)
  }

  /** Two allocations share the duplicate key: every column but `modeId`. */
  predicate SameKey(a: Allocation, c: Allocation) {
    a.moduleId == c.moduleId && a.classId == c.classId && a.facilitatorId == c.facilitatorId
    && a.trimester == c.trimester && a.year == c.year
  }

  /** The duplicate check of `createAllocation`. */
  predicate Duplicate(rows: map<Id, Allocation>, a: Allocation) {
    AnyRow(rows, (r: Allocation) => SameKey(r, a))
  }

  /** No two rows share the duplicate key. */
  predicate KeysUnique(rows: map<Id, Allocation>) {
    forall j, k :: j in rows && k in rows && SameKey(rows[j], rows[k]) ==> j == k
  }

  /** The chain of checks of `createAllocation`: the message of the first
      check that fails, or `None` when the body passes them all. */
  function Rejection(rows: map<Id, Allocation>, b: AllocationFields): (m: Option<string>)
    ensures m.None? <==> AllTruthy(b) && b.trimester.value in TRIMESTERS && FourDigits(b.year.value)
                         && !Duplicate(rows, Record(b))
    ensures !AllTruthy(b) ==> m == Some(MISSING_FIELDS)
    ensures AllTruthy(b) && b.trimester.value !in TRIMESTERS ==> m == Some(BAD_TRIMESTER)
    ensures AllTruthy(b) && b.trimester.value in TRIMESTERS && !FourDigits(b.year.value) ==> m == Some(BAD_YEAR)
    ensures m == Some(DUPLICATE) <==> AllTruthy(b) && b.trimester.value in TRIMESTERS && FourDigits(b.year.value)
                                      && Duplicate(rows, Record(b))
  {
    if !AllTruthy(b) then Some(MISSING_FIELDS)
    else if b.trimester.value !in TRIMESTERS then Some(BAD_TRIMESTER)
    else if !FourDigits(b.year.value) then Some(BAD_YEAR)
    else if Duplicate(rows, Record(b)) then Some(DUPLICATE)
    else None
  }

  /** `createAllocation`, with `newId` the generated primary key. */
  method CreateAllocation(table: Table<Allocation>, b: AllocationFields, newId: Id) returns (r: Reply<Allocation>)
    modifies table
    ensures Rejection(old(table.rows), b).Some?
            ==> r == Fail(400, Rejection(old(table.rows), b).value) && table.rows == old(table.rows)
    ensures Rejection(old(table.rows), b).None? && newId in old(table.rows)
            ==> r == Fail(400, STORE_ERROR) && table.rows == old(table.rows)
    ensures r.Ok? <==> Rejection(old(table.rows), b).None? && newId !in old(table.rows)
    ensures r.Ok? ==> r.status == 201 && r.data == Record(b) && table.rows == old(table.rows)[newId := Record(b)]
    // Creation never introduces a second allocation with the same key.
    ensures KeysUnique(old(table.rows)) ==> KeysUnique(table.rows)
  {
    var m := Rejection(table.rows, b);
    if m.Some? {
      return Fail(400, m.value);
    }
    var a := Record(b);
    var ok := table.Create(newId, a);
    if !ok {
      return Fail(400, STORE_ERROR);
    }
    assert forall k :: k in old(table.rows) ==> !SameKey(old(table.rows)[k], a);
    return Ok(201, a);
  }

  /** The assignments of `updateAllocation`: each column takes the supplied
      value when truthy and keeps its own otherwise. */
  function Merged(a: Allocation, b: AllocationFields): (m: Allocation)
    ensures forall c :: ColumnValue(m, c) == OrElse(Param(b, c), ColumnValue(a, c))
  {
    Allocation(OrElse(b.moduleId, a.moduleId), OrElse(b.classId, a.classId),
               OrElse(b.facilitatorId, a.facilitatorId), OrElse(b.modeId, a.modeId),
               OrElse(b.trimester, a.trimester), OrElse(b.year, a.year))
  }

  /** Applying the same update twice changes nothing more; an update with no
      truthy field changes nothing. */
  lemma MergedIdempotent(a: Allocation, b: AllocationFields)
    ensures Merged(Merged(a, b), b) == Merged(a, b)
    ensures (forall c :: !Truthy(Param(b, c))) ==> Merged(a, b) == a
  {
    if forall c :: !Truthy(Param(b, c)) {
      assert !Truthy(Param(b, ModuleId)) && !Truthy(Param(b, ClassId)) && !Truthy(Param(b, FacilitatorId));
      assert !Truthy(Param(b, ModeId)) && !Truthy(Param(b, Trimester)) && !Truthy(Param(b, Year));
    }
  }

  /** `updateAllocation` does not repeat the checks of `createAllocation`: a
      trimester and a year `createAllocation` refuses are stored as given. */
  lemma UpdateSkipsValidation(a: Allocation)
    ensures var b := AllocationFields(None, None, None, None, Some("T9"), Some("24"));
            Merged(a, b).trimester == "T9" && Merged(a, b).year == "24"
            && "T9" !in TRIMESTERS && !FourDigits("24")
  {
  }

  /** `updateAllocation`. */
  method UpdateAllocation(table: Table<Allocation>, id: Id, b: AllocationFields) returns (r: Reply<Allocation>)
    modifies table
    ensures id !in old(table.rows) ==> r == Fail(404, NOT_FOUND) && table.rows == old(table.rows)
    ensures id in old(table.rows) ==>
              r == Ok(200, Merged(old(table.rows)[id], b))
              && table.rows == old(table.rows)[id := Merged(old(table.rows)[id], b)]
  {
    if id !in table.rows {
      return Fail(404, NOT_FOUND);
    }
    var a := Merged(table.rows[id], b);
    table.Save(id, a);
    return Ok(200, a);
  }

  /** `deleteAllocation`. */
  method DeleteAllocation(table: Table<Allocation>, id: Id) returns (r: Reply<string>)
    modifies table
    ensures id !in old(table.rows) ==> r == Fail(404, NOT_FOUND) && table.rows == old(table.rows)
    ensures id in old(table.rows) ==> r == Ok(200, DELETED) && table.rows == old(table.rows) - {id}
  {
    if id !in table.rows {
      return Fail(404, NOT_FOUND);
    }
    table.Destroy(id);
    return Ok(200, DELETED);
  }

  // ---------------------------------------------------------------------------
  // Facilitator-scoped reads

  /** The check of both facilitator-scoped reads: anyone but a manager must hold
      the facilitator row named in the path. */
  method MayViewFacilitator(facilitators: map<Id, Facilitator>, who: Principal, facilitatorId: Id)
    returns (granted: bool)
    ensures who.role == MANAGER_ROLE ==> granted
    ensures who.role != MANAGER_ROLE && granted ==> Owns(facilitators, who.id, facilitatorId)
    ensures who.role != MANAGER_ROLE && SoleProfile(facilitators, who.id)
            ==> (granted <==> Owns(facilitators, who.id, facilitatorId))
  {
    if who.role == MANAGER_ROLE {
      return true;
    }
    var found := FindOne(facilitators, (f: Facilitator) => f.userId == who.id);
    granted := found.Some? && found.value == facilitatorId;
  }

  /** `getFacilitatorAllocations`. */
  method GetFacilitatorAllocations(rows: map<Id, Allocation>, facilitators: map<Id, Facilitator>,
                                   who: Principal, facilitatorId: Id)
    returns (r: Reply<map<Id, Allocation>>)
    ensures r.Fail? ==> r == Fail(403, ACCESS_DENIED) && who.role != MANAGER_ROLE
                        && !(SoleProfile(facilitators, who.id) && Owns(facilitators, who.id, facilitatorId))
    ensures r.Ok? ==> (who.role == MANAGER_ROLE || Owns(facilitators, who.id, facilitatorId))
                      && r.status == 200
                      && (forall k :: k in r.data <==> k in rows && rows[k].facilitatorId == facilitatorId)
                      && (forall k :: k in r.data ==> r.data[k] == rows[k])
    ensures who.role != MANAGER_ROLE && !Owns(facilitators, who.id, facilitatorId) ==> r.Fail?
  {
    var granted := MayViewFacilitator(facilitators, who, facilitatorId);
    if !granted {
      return Fail(403, ACCESS_DENIED);
    }
    return Ok(200, FindAll(rows, (a: Allocation) => a.facilitatorId == facilitatorId));
  }

  /** `getFacilitatorAllocationById`: the 403 check, then a 404 unless the
      allocation exists and belongs to the facilitator in the path. */
  method GetFacilitatorAllocationById(rows: map<Id, Allocation>, facilitators: map<Id, Facilitator>,
                                      who: Principal, facilitatorId: Id, id: Id)
    returns (r: Reply<Allocation>)
    ensures r.Ok? ==> (who.role == MANAGER_ROLE || Owns(facilitators, who.id, facilitatorId))
                      && id in rows && rows[id].facilitatorId == facilitatorId && r == Ok(200, rows[id])
    ensures who.role != MANAGER_ROLE && !Owns(facilitators, who.id, facilitatorId) ==> r == Fail(403, ACCESS_DENIED)
    ensures r.Fail? && r.status == 404 ==> r.message == NOT_FOUND && !(id in rows && rows[id].facilitatorId == facilitatorId)
    ensures (who.role == MANAGER_ROLE || (SoleProfile(facilitators, who.id) && Owns(facilitators, who.id, facilitatorId)))
            ==> (r.Ok? <==> id in rows && rows[id].facilitatorId == facilitatorId)
    ensures r.Ok? || r.status in {403, 404}
  {
    var granted := MayViewFacilitator(facilitators, who, facilitatorId);
    if !granted {
      return Fail(403, ACCESS_DENIED);
    }
    if id !in rows || rows[id].facilitatorId != facilitatorId {
      return Fail(404, NOT_FOUND);
    }
    return Ok(200, rows[id]);
  }

  // ---------------------------------------------------------------------------
  // filterAllocations

  /** The `whereClause` of `filterAllocations`, filled key by key. */
  function FilterWhere(q: AllocationFields): (w: map<AllocationColumn, string>)
    ensures forall c :: c in w <==> Truthy(Param(q, c))
    ensures forall c :: c in w ==> Truthy(Param(q, c)) && w[c] == Param(q, c).value
  {
    var w0: map<AllocationColumn, string> := map[];
    var w1 := if Truthy(q.trimester) then w0[Trimester := q.trimester.value] else w0;
    var w2 := if Truthy(q.year) then w1[Year := q.year.value] else w1;
    var w3 := if Truthy(q.facilitatorId) then w2[FacilitatorId := q.facilitatorId.value] else w2;
    var w4 := if Truthy(q.modeId) then w3[ModeId := q.modeId.value] else w3;
    var w5 := if Truthy(q.moduleId) then w4[ModuleId := q.moduleId.value] else w4;
    if Truthy(q.classId) then w5[ClassId := q.classId.value] else w5
  }

  /** `filterAllocations`: exactly the allocations that agree with every truthy parameter. */
  function FilterAllocations(rows: map<Id, Allocation>, q: AllocationFields): (r: map<Id, Allocation>)
    ensures forall k :: k in r <==>
              k in rows && forall c :: Truthy(Param(q, c)) ==> ColumnValue(rows[k], c) == Param(q, c).value
    ensures forall k :: k in r ==> r[k] == rows[k]
  {
    var w := FilterWhere(q);
    FindAll(rows, (a: Allocation) => forall c :: c in w ==> ColumnValue(a, c) == w[c])
  }

  /** An empty query returns every allocation. */
  lemma EmptyFilterIsAll(rows: map<Id, Allocation>)
    ensures FilterAllocations(rows, AllocationFields(None, None, None, None, None, None)) == rows
  {
  }
}
