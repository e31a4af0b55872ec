/** controllers/activityLogController.js: creating, listing, reading, updating
    and deleting weekly activity logs, with the facilitator ownership rule and
    the `log-submitted` / `grading-updated` notifications.

    The tables are passed in: `logs` is the only one the controller writes;
    `allocations`, `facilitators` and `users` are read to resolve
    `log.Allocation.Facilitator.User`. */
module ActivityLogController {
  import opened Common
  import opened Calendar
  import opened Store
  import opened Jobs

  const FACILITATOR_ROLE := "facilitator"

  /** The values of the `ENUM('Done', 'Pending', 'Not Started')` status columns. */
  const STATUSES: set<string> := {"Done", "Pending", "Not Started"}
  /** The default of every status column. */
  const NOT_STARTED := "Not Started"
  /** The value `gradingStatus` is compared with when `gradingStatusValue` is falsy. */
  const PENDING := "Pending"

  const ALLOCATION_NOT_FOUND := "Allocation not found"
  const NOT_YOUR_ALLOCATION := "You are not authorized to create logs for this allocation"
  const CREATE_FAILED := "Failed to create activity log"
  const FETCH_ALL_FAILED := "Failed to fetch logs"
  const LOG_NOT_FOUND := "Log not found"
  const ACCESS_DENIED := "Access denied to this log"
  const FETCH_FAILED := "Failed to fetch log"
  const NOT_YOUR_LOG := "You can only update your own logs"
  const UPDATE_FAILED := "Failed to update log"
  const DELETED := "Log deleted successfully"

  const SUBMITTED_MESSAGE := "Activity log submitted for week "
  const SUBMITTED_SUBJECT := "Activity Log Submitted"
  const GRADING_MESSAGE := "Grading status updated for week "
  const GRADING_SUBJECT := "Grading Status Updated"

  // ---------------------------------------------------------------------------
  // Request bodies and the records they produce

  /** The log columns a request body may carry; `None` is a key the body omits. */
  datatype LogBody = LogBody(
    allocationId: Option<Id>, week: Option<int>, attendance: Option<seq<string>>,
    formativeOneGrading: Field, formativeTwoGrading: Field, summativeGrading: Field,
    courseModeration: Field, intranetSync: Field, gradeBookStatus: Field)

  /** The six status values of a log. */
  function Statuses(l: ActivityLog): seq<string> {
    [l.formativeOneGrading, l.formativeTwoGrading, l.summativeGrading,
     l.courseModeration, l.intranetSync, l.gradeBookStatus]
  }

  /** Every status column holds one of its ENUM values. */
  predicate ValidLog(l: ActivityLog) {
    l.formativeOneGrading in STATUSES && l.formativeTwoGrading in STATUSES && l.summativeGrading in STATUSES
    && l.courseModeration in STATUSES && l.intranetSync in STATUSES && l.gradeBookStatus in STATUSES
  }

  /** A supplied status value passes the ENUM validation. */
  predicate StatusOk(v: Field) {
    v.None? || v.value in STATUSES
  }

  predicate StatusesOk(b: LogBody) {
    StatusOk(b.formativeOneGrading) && StatusOk(b.formativeTwoGrading) && StatusOk(b.summativeGrading)
    && StatusOk(b.courseModeration) && StatusOk(b.intranetSync) && StatusOk(b.gradeBookStatus)
  }

  /** A supplied value, or `current` when the key is omitted. */
  function Given<T>(v: Option<T>, current: T): T {
    if v.Some? then v.value else current
  }

  /** `ActivityLog.create({ allocationId, week, ...fields })`: the row written, or
      `None` when validation fails (a missing week, a status outside its ENUM). */
  function Created(allocationId: Id, b: LogBody): (r: Option<ActivityLog>)
    ensures r.Some? <==> b.week.Some? && StatusesOk(b)
    ensures r.Some? ==> ValidLog(r.value) && r.value.allocationId == allocationId && r.value.week == b.week.value
    ensures r.Some? ==> r.value.attendance == Given(b.attendance, [])
    ensures r.Some? ==> forall i :: 0 <= i < 6 ==> Statuses(r.value)[i] == Given(StatusFields(b)[i], NOT_STARTED)
  {
    if b.week.None? || !StatusesOk(b) then None
    else Some(ActivityLog(
      allocationId, b.week.value, Given(b.attendance, []),
      Given(b.formativeOneGrading, NOT_STARTED), Given(b.formativeTwoGrading, NOT_STARTED),
      Given(b.summativeGrading, NOT_STARTED), Given(b.courseModeration, NOT_STARTED),
      Given(b.intranetSync, NOT_STARTED), Given(b.gradeBookStatus, NOT_STARTED)))
  }

  /** The six status keys of a body, in column order. */
  function StatusFields(b: LogBody): seq<Field> {
    [b.formativeOneGrading, b.formativeTwoGrading, b.summativeGrading,
     b.courseModeration, b.intranetSync, b.gradeBookStatus]
  }

  /** `log.update(req.body)`: every key the body carries overwrites its column;
      `None` when a supplied status fails the ENUM validation. */
  function Patched(l: ActivityLog, b: LogBody): (r: Option<ActivityLog>)
    requires ValidLog(l)
    ensures r.Some? <==> StatusesOk(b)
    ensures r.Some? ==> ValidLog(r.value)
    ensures r.Some? ==> r.value.allocationId == Given(b.allocationId, l.allocationId)
                        && r.value.week == Given(b.week, l.week)
                        && r.value.attendance == Given(b.attendance, l.attendance)
    ensures r.Some? ==> forall i :: 0 <= i < 6 ==> Statuses(r.value)[i] == Given(StatusFields(b)[i], Statuses(l)[i])
  {
    if !StatusesOk(b) then None
    else Some(ActivityLog(
      Given(b.allocationId, l.allocationId), Given(b.week, l.week), Given(b.attendance, l.attendance),
      Given(b.formativeOneGrading, l.formativeOneGrading), Given(b.formativeTwoGrading, l.formativeTwoGrading),
      Given(b.summativeGrading, l.summativeGrading), Given(b.courseModeration, l.courseModeration),
      Given(b.intranetSync, l.intranetSync), Given(b.gradeBookStatus, l.gradeBookStatus)))
  }

  /** An update whose body omits every key leaves the log as it was. */
  lemma EmptyPatchKeepsLog(l: ActivityLog)
    requires ValidLog(l)
    ensures Patched(l, LogBody(None, None, None, None, None, None, None, None, None)) == Some(l)
  {
  }

  /** The body sets one of the three grading columns to a truthy value: the
      condition for the `grading-updated` notification. */
  predicate GradingTouched(b: LogBody) {
    Truthy(b.formativeOneGrading) || Truthy(b.formativeTwoGrading) || Truthy(b.summativeGrading)
  }

  // ---------------------------------------------------------------------------
  // Resolving the facilitator chain and the ownership rule

  /** `allocation.Facilitator.User`, when both rows exist. */
  function ContactOf(a: Allocation, facilitators: map<Id, Facilitator>, users: map<Id, User>): (c: Option<Contact>)
    ensures c.Some? <==> a.facilitatorId in facilitators && facilitators[a.facilitatorId].userId in users
    ensures c.Some? ==> c.value.email == users[facilitators[a.facilitatorId].userId].email
                        && c.value.name == users[facilitators[a.facilitatorId].userId].name
  {
    if a.facilitatorId in facilitators && facilitators[a.facilitatorId].userId in users then
      var u := users[facilitators[a.facilitatorId].userId];
      Some(Contact(u.email, u.name))
    else None
  }

  /** `Facilitator.findOne({ where: { userId } })` finds a row: the user has a facilitator profile. */
  predicate HasProfile(facilitators: map<Id, Facilitator>, userId: Id) {
    AnyRow(facilitators, (f: Facilitator) => f.userId == userId)
  }

  /** Outcome of the ownership check. `Broken` is the `TypeError` of reading
      `log.Allocation.facilitatorId` when the log's allocation row is missing. */
  datatype Access = Granted | Denied | Broken

  /** The check shared by createLog, getLogById and updateLog: a facilitator must
      hold the facilitator row of the allocation; any other role passes. */
  method CheckAccess(facilitators: map<Id, Facilitator>, who: Principal, allocation: Option<Allocation>)
    returns (access: Access)
    ensures who.role != FACILITATOR_ROLE ==> access == Granted
    ensures who.role == FACILITATOR_ROLE && !HasProfile(facilitators, who.id) ==> access == Denied
    ensures access == Broken <==> who.role == FACILITATOR_ROLE && allocation.None? && HasProfile(facilitators, who.id)
    ensures access == Granted && who.role == FACILITATOR_ROLE
            ==> allocation.Some? && Owns(facilitators, who.id, allocation.value.facilitatorId)
    ensures who.role == FACILITATOR_ROLE && allocation.Some? && SoleProfile(facilitators, who.id)
            ==> (access == Granted <==> Owns(facilitators, who.id, allocation.value.facilitatorId))
  {
    if who.role != FACILITATOR_ROLE {
      return Granted;
    }
    var found := FindOne(facilitators, (f: Facilitator) => f.userId == who.id);
    if found.None? {
      return Denied;
    }
    if allocation.None? {
      return Broken;
    }
    if allocation.value.facilitatorId != found.value {
      return Denied;
    }
    return Granted;
  }

  // ---------------------------------------------------------------------------
  // createLog

  function SubmittedNotice(c: Contact, week: int, allocationId: Id): Notice {
    Notice(c.email, c.name, week, allocationId, SUBMITTED_MESSAGE + ShowInt(week), Some(SUBMITTED_SUBJECT))
  }

  /** The jobs createLog enqueues once the log is written. */
  function SubmittedJobs(a: Allocation, facilitators: map<Id, Facilitator>, users: map<Id, User>,
                         week: int, allocationId: Id): seq<Job>
  {
    var c := ContactOf(a, facilitators, users);
    if c.Some? then [LogSubmitted(SubmittedNotice(c.value, week, allocationId))] else []
  }

  /** The notice names the submitted week, in its message too. */
  lemma SubmittedNoticeCitesWeek(c: Contact, week: int, allocationId: Id)
    ensures SubmittedNotice(c, week, allocationId).week == week
    ensures Contains(SubmittedNotice(c, week, allocationId).message, ShowInt(week))
  {
    ContainsItself(ShowInt(week));
    ContainsAfter(SUBMITTED_MESSAGE, ShowInt(week), ShowInt(week));
  }

  /** The allocation the body names, when it exists. */
  function BodyAllocation(allocations: map<Id, Allocation>, b: LogBody): Option<Allocation> {
    if b.allocationId.Some? && b.allocationId.value in allocations
    then Some(allocations[b.allocationId.value]) else None
  }

  /** `createLog`, with `newId` the generated primary key. */
  method CreateLog(logs: Table<ActivityLog>, queue: JobQueue,
                   allocations: map<Id, Allocation>, facilitators: map<Id, Facilitator>, users: map<Id, User>,
                   who: Principal, b: LogBody, newId: Id) returns (r: Reply<ActivityLog>)
    modifies logs, queue`jobs
    // An unknown allocation is a 404 before anything else.
    ensures BodyAllocation(allocations, b).None?
            ==> r == Fail(404, ALLOCATION_NOT_FOUND) && logs.rows == old(logs.rows) && queue.jobs == old(queue.jobs)
    // A facilitator who does not hold the allocation gets a 403 and nothing is written.
    ensures BodyAllocation(allocations, b).Some? && who.role == FACILITATOR_ROLE
            && !Owns(facilitators, who.id, BodyAllocation(allocations, b).value.facilitatorId)
            ==> r == Fail(403, NOT_YOUR_ALLOCATION) && logs.rows == old(logs.rows) && queue.jobs == old(queue.jobs)
    ensures r.Fail? && r.status == 403 ==> who.role == FACILITATOR_ROLE && logs.rows == old(logs.rows) && queue.jobs == old(queue.jobs)
    ensures r == Fail(404, ALLOCATION_NOT_FOUND) <==> BodyAllocation(allocations, b).None?
    // Past the checks: the log is validated and written, then one `log-submitted` job is enqueued.
    ensures r.Fail? && r.status == 500 ==> b.allocationId.Some?
    ensures (r.Ok? || (r.Fail? && r.status == 500)) ==>
      var a := allocations[b.allocationId.value];
      var log := Created(b.allocationId.value, b);
      if log.None? || newId in old(logs.rows) then
        r == Fail(500, CREATE_FAILED) && logs.rows == old(logs.rows) && queue.jobs == old(queue.jobs)
      else
        logs.rows == old(logs.rows)[newId := log.value]
        && queue.jobs == old(queue.jobs) + (if queue.available then SubmittedJobs(a, facilitators, users, b.week.value, b.allocationId.value) else [])
        && r == (if !queue.available && ContactOf(a, facilitators, users).Some? then Fail(500, CREATE_FAILED) else Ok(201, log.value))
    ensures r.Ok? || r.status in {403, 404, 500}
    ensures BodyAllocation(allocations, b).Some?
            && (who.role != FACILITATOR_ROLE
                || (SoleProfile(facilitators, who.id)
                    && Owns(facilitators, who.id, BodyAllocation(allocations, b).value.facilitatorId)))
            ==> r.Ok? || r.status == 500
  {
    var allocation := BodyAllocation(allocations, b);
    if allocation.None? {
      return Fail(404, ALLOCATION_NOT_FOUND);
    }
    var access := CheckAccess(facilitators, who, allocation);
    if access != Granted {
      return Fail(403, NOT_YOUR_ALLOCATION);
    }
    var log := Created(b.allocationId.value, b);
    if log.None? {
      return Fail(500, CREATE_FAILED);
    }
    var created := logs.Create(newId, log.value);
    if !created {
      return Fail(500, CREATE_FAILED);
    }
    var contact := ContactOf(allocation.value, facilitators, users);
    if contact.Some? {
      var ok := queue.Add(LogSubmitted(SubmittedNotice(contact.value, b.week.value, b.allocationId.value)));
      if !ok {
        return Fail(500, CREATE_FAILED);
      }
    }
    return Ok(201, log.value);
  }

  // ---------------------------------------------------------------------------
  // getAllLogs

  /** The query string of `GET /api/logs`. */
  datatype LogQuery = LogQuery(
    facilitatorId: Field, moduleId: Field, week: Field, status: Field,
    gradingStatus: Field, gradingStatusValue: Field)

  /** `where` on the log: column equalities, and the `Op.or` over the six status columns. */
  datatype Where = Where(columns: map<string, string>, anyStatus: Field)

  /** The `where` of the log and the `where` of the included Allocation, if any. */
  datatype Filter = Filter(logWhere: Where, allocationWhere: Option<map<AllocationColumn, string>>)

  /** The value of log column `c`, as the string it is compared with; `None` for a
      name that is not a column of this model. */
  function LogColumn(key: Id, l: ActivityLog, c: string): Option<string> {
    if c == "id" then Some(key)
    else if c == "allocationId" then Some(l.allocationId)
    else if c == "week" then Some(ShowInt(l.week))
    else if c == "formativeOneGrading" then Some(l.formativeOneGrading)
    else if c == "formativeTwoGrading" then Some(l.formativeTwoGrading)
    else if c == "summativeGrading" then Some(l.summativeGrading)
    else if c == "courseModeration" then Some(l.courseModeration)
    else if c == "intranetSync" then Some(l.intranetSync)
    else if c == "gradeBookStatus" then Some(l.gradeBookStatus)
    else None
  }

  predicate KnownColumn(c: string) {
    LogColumn("", ActivityLog("", 0, [], "", "", "", "", "", ""), c).Some?
  }

  /** The filter `getAllLogs` builds, key by key, from the query string. */
  function BuildFilter(q: LogQuery): Filter {
    var allocationWhere :=
      if Truthy(q.facilitatorId) || Truthy(q.moduleId) then
        var w := if Truthy(q.facilitatorId) then map[FacilitatorId := q.facilitatorId.value] else map[];
        Some(if Truthy(q.moduleId) then w[ModuleId := q.moduleId.value] else w)
      else None;
    var columns := if Truthy(q.week) then map["week" := q.week.value] else map[];
    var anyStatus := if Truthy(q.status) then q.status else None;
    var columns' :=
      if Truthy(q.gradingStatus) then columns[q.gradingStatus.value := OrElse(q.gradingStatusValue, PENDING)]
      else columns;
    Filter(Where(columns', anyStatus), allocationWhere)
  }

  /** How the store evaluates a filter on one log row. An Allocation `where`
      makes the join inner, so a log without its allocation row is then dropped. */
  predicate Matches(f: Filter, key: Id, l: ActivityLog, allocations: map<Id, Allocation>) {
    (forall c :: c in f.logWhere.columns ==> LogColumn(key, l, c) == Some(f.logWhere.columns[c]))
    && (f.logWhere.anyStatus.Some? ==> f.logWhere.anyStatus.value in Statuses(l))
    && (f.allocationWhere.Some? ==>
          l.allocationId in allocations
          && forall c :: c in f.allocationWhere.value ==>
               ColumnValue(allocations[l.allocationId], c) == f.allocationWhere.value[c])
  }

  /** The filtering rules stated parameter by parameter: each truthy parameter
      adds one condition. A `gradingStatus` naming the `week` column takes the
      place of the `week` parameter, since both write the same key. */
  predicate Admits(q: LogQuery, key: Id, l: ActivityLog, allocations: map<Id, Allocation>) {
    ((Truthy(q.week) && !(Truthy(q.gradingStatus) && q.gradingStatus.value == "week"))
       ==> ShowInt(l.week) == q.week.value)
    && (Truthy(q.status) ==> q.status.value in Statuses(l))
    && (Truthy(q.gradingStatus) ==>
          LogColumn(key, l, q.gradingStatus.value) == Some(OrElse(q.gradingStatusValue, PENDING)))
    && (Truthy(q.facilitatorId) ==>
          l.allocationId in allocations && allocations[l.allocationId].facilitatorId == q.facilitatorId.value)
    && (Truthy(q.moduleId) ==>
          l.allocationId in allocations && allocations[l.allocationId].moduleId == q.moduleId.value)
  }

  /** The filter built from a query admits exactly the logs the rules admit. */
  lemma FilterMeansAdmits(q: LogQuery, key: Id, l: ActivityLog, allocations: map<Id, Allocation>)
    ensures Matches(BuildFilter(q), key, l, allocations) <==> Admits(q, key, l, allocations)
  {
    var f := BuildFilter(q);
    var cols := f.logWhere.columns;
    if Truthy(q.gradingStatus) {
      var g := q.gradingStatus.value;
      assert g in cols;
      if Truthy(q.week) && g != "week" {
        assert "week" in cols;
      }
    } else if Truthy(q.week) {
      assert "week" in cols;
    }
    if f.allocationWhere.Some? {
      var aw := f.allocationWhere.value;
      if Truthy(q.facilitatorId) {
        assert FacilitatorId in aw;
      }
      if Truthy(q.moduleId) {
        assert ModuleId in aw;
      }
    }
  }

  /** `getAllLogs`: the logs the filter admits, or 500 when `gradingStatus`
      names no column. */
  function GetAllLogs(rows: map<Id, ActivityLog>, allocations: map<Id, Allocation>, q: LogQuery)
    : (r: Reply<map<Id, ActivityLog>>)
    ensures r.Fail? <==> Truthy(q.gradingStatus) && !KnownColumn(q.gradingStatus.value)
    ensures r.Fail? ==> r == Fail(500, FETCH_ALL_FAILED)
    ensures r.Ok? ==> r.status == 200
                      && (forall k :: k in r.data <==> k in rows && Admits(q, k, rows[k], allocations))
                      && (forall k :: k in r.data ==> r.data[k] == rows[k])
  {
    if Truthy(q.gradingStatus) && !KnownColumn(q.gradingStatus.value) then Fail(500, FETCH_ALL_FAILED)
    else
      var f := BuildFilter(q);
      var found := map k | k in rows && Matches(f, k, rows[k], allocations) :: rows[k];
      assert forall k :: k in rows ==> (Matches(f, k, rows[k], allocations) <==> Admits(q, k, rows[k], allocations)) by {
        forall k | k in rows {
          FilterMeansAdmits(q, k, rows[k], allocations);
        }
      }
      Ok(200, found)
  }

  // ---------------------------------------------------------------------------
  // getLogById, updateLog, deleteLog

  /** `log.Allocation`: the allocation row of a log, when it exists. */
  function AllocationOf(allocations: map<Id, Allocation>, l: ActivityLog): Option<Allocation> {
    if l.allocationId in allocations then Some(allocations[l.allocationId]) else None
  }

  /** `getLogById`. */
  method GetLogById(rows: map<Id, ActivityLog>, allocations: map<Id, Allocation>,
                    facilitators: map<Id, Facilitator>, who: Principal, id: Id) returns (r: Reply<ActivityLog>)
    ensures id !in rows <==> r == Fail(404, LOG_NOT_FOUND)
    ensures r.Ok? ==> r == Ok(200, rows[id])
    ensures r.Ok? || r == Fail(404, LOG_NOT_FOUND) || r == Fail(403, ACCESS_DENIED) || r == Fail(500, FETCH_FAILED)
    ensures id in rows && who.role != FACILITATOR_ROLE ==> r.Ok?
    ensures r.Ok? && who.role == FACILITATOR_ROLE
            ==> AllocationOf(allocations, rows[id]).Some?
                && Owns(facilitators, who.id, AllocationOf(allocations, rows[id]).value.facilitatorId)
    ensures id in rows && who.role == FACILITATOR_ROLE && SoleProfile(facilitators, who.id)
            && AllocationOf(allocations, rows[id]).Some?
            ==> (r.Ok? <==> Owns(facilitators, who.id, AllocationOf(allocations, rows[id]).value.facilitatorId))
    // A facilitator without a profile, or reading another facilitator's log, is refused with 403.
    ensures id in rows && who.role == FACILITATOR_ROLE && !HasProfile(facilitators, who.id)
            ==> r == Fail(403, ACCESS_DENIED)
    ensures id in rows && who.role == FACILITATOR_ROLE && AllocationOf(allocations, rows[id]).Some?
            && !Owns(facilitators, who.id, AllocationOf(allocations, rows[id]).value.facilitatorId)
            ==> r == Fail(403, ACCESS_DENIED)
    // The 500 is the `TypeError` of a facilitator's read of a log whose allocation row is missing.
    ensures r == Fail(500, FETCH_FAILED)
            <==> id in rows && who.role == FACILITATOR_ROLE && HasProfile(facilitators, who.id)
                 && AllocationOf(allocations, rows[id]).None?
  {
    if id !in rows {
      return Fail(404, LOG_NOT_FOUND);
    }
    var access := CheckAccess(facilitators, who, AllocationOf(allocations, rows[id]));
    match access
    case Granted => return Ok(200, rows[id]);
    case Denied => return Fail(403, ACCESS_DENIED);
    case Broken => return Fail(500, FETCH_FAILED);
  }

  function GradingNotice(c: Contact, l: ActivityLog): Notice {
    Notice(c.email, c.name, l.week, l.allocationId, GRADING_MESSAGE + ShowInt(l.week), Some(GRADING_SUBJECT))
  }

  /** The jobs updateLog enqueues after saving `updated`. */
  function GradingJobs(allocation: Option<Allocation>, facilitators: map<Id, Facilitator>, users: map<Id, User>,
                       b: LogBody, updated: ActivityLog): seq<Job>
  {
    if GradingTouched(b) && allocation.Some? && ContactOf(allocation.value, facilitators, users).Some?
    then [GradingUpdated(GradingNotice(ContactOf(allocation.value, facilitators, users).value, updated))]
    else []
  }

  /** `updateLog`. The allocation chain is the one loaded with the log, before the update. */
  method UpdateLog(logs: Table<ActivityLog>, queue: JobQueue,
                   allocations: map<Id, Allocation>, facilitators: map<Id, Facilitator>, users: map<Id, User>,
                   who: Principal, id: Id, b: LogBody) returns (r: Reply<ActivityLog>)
    requires forall k :: k in logs.rows ==> ValidLog(logs.rows[k])
    modifies logs, queue`jobs
    ensures forall k :: k in logs.rows ==> ValidLog(logs.rows[k])
    ensures id !in old(logs.rows)
            ==> r == Fail(404, LOG_NOT_FOUND) && logs.rows == old(logs.rows) && queue.jobs == old(queue.jobs)
    ensures r == Fail(404, LOG_NOT_FOUND) <==> id !in old(logs.rows)
    ensures r.Fail? && r.status == 403
            ==> who.role == FACILITATOR_ROLE && logs.rows == old(logs.rows) && queue.jobs == old(queue.jobs)
    // Only a truthy grading column in the body notifies.
    ensures !GradingTouched(b) ==> queue.jobs == old(queue.jobs)
    ensures r.Ok? ==>
      var l := old(logs.rows)[id];
      var l' := Patched(l, b);
      l'.Some? && r == Ok(200, l'.value) && logs.rows == old(logs.rows)[id := l'.value]
      && (who.role == FACILITATOR_ROLE ==>
            AllocationOf(allocations, l).Some?
            && Owns(facilitators, who.id, AllocationOf(allocations, l).value.facilitatorId))
      && (GradingTouched(b) ==> AllocationOf(allocations, l).Some?)
      && queue.jobs == old(queue.jobs) + GradingJobs(AllocationOf(allocations, l), facilitators, users, b, l'.value)
    // An invalid status changes nothing; past the ownership check it is the catch's 500.
    ensures id in old(logs.rows) && !StatusesOk(b) ==> logs.rows == old(logs.rows) && queue.jobs == old(queue.jobs)
    ensures id in old(logs.rows) && !StatusesOk(b)
            && (who.role != FACILITATOR_ROLE
                || (SoleProfile(facilitators, who.id) && AllocationOf(allocations, old(logs.rows)[id]).Some?
                    && Owns(facilitators, who.id, AllocationOf(allocations, old(logs.rows)[id]).value.facilitatorId)))
            ==> r == Fail(500, UPDATE_FAILED)
    // A facilitator without a profile, or updating another facilitator's log, gets 403 and nothing is written.
    ensures id in old(logs.rows) && who.role == FACILITATOR_ROLE
            && (!HasProfile(facilitators, who.id)
                || (AllocationOf(allocations, old(logs.rows)[id]).Some?
                    && !Owns(facilitators, who.id, AllocationOf(allocations, old(logs.rows)[id]).value.facilitatorId)))
            ==> r == Fail(403, NOT_YOUR_LOG) && logs.rows == old(logs.rows) && queue.jobs == old(queue.jobs)
    // A facilitator with a profile whose log has no allocation row hits the `TypeError`: 500, nothing written.
    ensures id in old(logs.rows) && who.role == FACILITATOR_ROLE && HasProfile(facilitators, who.id)
            && AllocationOf(allocations, old(logs.rows)[id]).None?
            ==> r == Fail(500, UPDATE_FAILED) && logs.rows == old(logs.rows) && queue.jobs == old(queue.jobs)
    // Anyone else who passes the check, the owner included, has the patch saved; the reply is 500
    // only when the notification step throws after the save.
    ensures id in old(logs.rows) && StatusesOk(b)
            && (who.role != FACILITATOR_ROLE
                || (SoleProfile(facilitators, who.id) && AllocationOf(allocations, old(logs.rows)[id]).Some?
                    && Owns(facilitators, who.id, AllocationOf(allocations, old(logs.rows)[id]).value.facilitatorId)))
            ==> var l := old(logs.rows)[id];
                var a := AllocationOf(allocations, l);
                var l' := Patched(l, b).value;
                logs.rows == old(logs.rows)[id := l']
                && queue.jobs == old(queue.jobs) + (if queue.available then GradingJobs(a, facilitators, users, b, l') else [])
                && r == (if GradingTouched(b) && (a.None? || (!queue.available && ContactOf(a.value, facilitators, users).Some?))
                         then Fail(500, UPDATE_FAILED) else Ok(200, l'))
    ensures r.Ok? || r == Fail(404, LOG_NOT_FOUND) || r == Fail(403, NOT_YOUR_LOG) || r == Fail(500, UPDATE_FAILED)
  {
    if id !in logs.rows {
      return Fail(404, LOG_NOT_FOUND);
    }
    var l := logs.rows[id];
    var allocation := AllocationOf(allocations, l);
    var access := CheckAccess(facilitators, who, allocation);
    if access == Denied {
      return Fail(403, NOT_YOUR_LOG);
    } else if access == Broken {
      return Fail(500, UPDATE_FAILED);
    }
    var updated := Patched(l, b);
    if updated.None? {
      return Fail(500, UPDATE_FAILED);
    }
    logs.Save(id, updated.value);
    if GradingTouched(b) {
      if allocation.None? {
        // `log.Allocation.Facilitator` on a null allocation throws after the save.
        return Fail(500, UPDATE_FAILED);
      }
      var contact := ContactOf(allocation.value, facilitators, users);
      if contact.Some? {
        var ok := queue.Add(GradingUpdated(GradingNotice(contact.value, updated.value)));
        if !ok {
          return Fail(500, UPDATE_FAILED);
        }
      }
    }
    return Ok(200, updated.value);
  }

  /** The grading notice carries the week and allocation of the log as updated:
      the body's values where it resends them, the stored ones otherwise. */
  lemma GradingNoticeUsesUpdatedLog(c: Contact, l: ActivityLog, b: LogBody)
    requires ValidLog(l) && StatusesOk(b)
    ensures GradingNotice(c, Patched(l, b).value).week == Given(b.week, l.week)
    ensures GradingNotice(c, Patched(l, b).value).allocationId == Given(b.allocationId, l.allocationId)
    ensures Contains(GradingNotice(c, Patched(l, b).value).message, ShowInt(Given(b.week, l.week)))
  {
    var w := ShowInt(Given(b.week, l.week));
    ContainsItself(w);
    ContainsAfter(GRADING_MESSAGE, w, w);
  }

  /** `deleteLog`. */
  method DeleteLog(logs: Table<ActivityLog>, id: Id) returns (r: Reply<string>)
    modifies logs
    ensures id !in old(logs.rows) ==> r == Fail(404, LOG_NOT_FOUND) && logs.rows == old(logs.rows)
    ensures id in old(logs.rows) ==> r == Ok(200, DELETED) && logs.rows == old(logs.rows) - {id}
  {
    if id !in logs.rows {
      return Fail(404, LOG_NOT_FOUND);
    }
    logs.Destroy(id);
    return Ok(200, DELETED);
  }

  // ---------------------------------------------------------------------------
  // getOverdueLogs

  /** `getOverdueLogs`: the logs of weeks before the current one. */
  function GetOverdueLogs(rows: map<Id, ActivityLog>, c: Clock): (r: map<Id, ActivityLog>)
    ensures forall k :: k in r <==> k in rows && rows[k].week < WeekOf(c)
    ensures forall k :: k in r ==> r[k] == rows[k]
  {
    FindAll(rows, (l: ActivityLog) => l.week < WeekOf(c))
  }

  /** Within a year, a log once overdue stays overdue, and a log of the current
      week is never overdue. */
  lemma OverdueLogsGrow(rows: map<Id, ActivityLog>, c1: Clock, c2: Clock)
    requires c1.sinceJan1 <= c2.sinceJan1
    ensures GetOverdueLogs(rows, c1).Keys <= GetOverdueLogs(rows, c2).Keys
    ensures forall k :: k in rows && rows[k].week >= WeekOf(c2) ==> k !in GetOverdueLogs(rows, c2)
  {
    CurrentWeekMonotonic(c1.sinceJan1, c2.sinceJan1);
  }
}
