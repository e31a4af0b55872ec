/** The hourly overdue scan, written twice in the source with the same logic:
    as `checkOverdueLogs` of services/NotificationWorker.js and as the
    module-level `checkOverdueLogs` of services/Reminder.js. Both look up every
    activity log of an earlier week with its Allocation -> Facilitator -> User
    chain and enqueue an `overdue-reminder` per log whose facilitator resolves.

    The query result is passed in as a snapshot in query order. */
module OverdueScan {
  import opened Common
  import opened Calendar
  import opened Jobs

  /** The facilitator joined to an allocation, with its User row if any. */
  datatype FacilitatorRef = FacilitatorRef(user: Option<Contact>)

  /** The allocation joined to a log, with its facilitator if any. */
  datatype AllocationRef = AllocationRef(facilitator: Option<FacilitatorRef>)

  /** One activity log as the overdue query returns it; `allocation` is `None`
      when the referenced allocation row no longer exists. */
  datatype LogRow = LogRow(week: int, allocationId: Id, allocation: Option<AllocationRef>)

  /** `ActivityLog.findAll({ where: { week: { [Op.lt]: currentWeek } } })`, in query order. */
  function OverdueQuery(logs: seq<LogRow>, currentWeek: int): (r: seq<LogRow>)
    ensures |r| <= |logs|
    ensures forall x :: x in r <==> x in logs && x.week < currentWeek
  {
    if logs == [] then []
    else (if logs[0].week < currentWeek then [logs[0]] else []) + OverdueQuery(logs[1..], currentWeek)
  }

  /** `log.Allocation.Facilitator && log.Allocation.Facilitator.User`: the
      facilitator's User row is present. Its email is not checked. */
  predicate Resolvable(r: LogRow) {
    && r.allocation.Some?
    && r.allocation.value.facilitator.Some?
    && r.allocation.value.facilitator.value.user.Some?
  }

  /** The `overdue-reminder` job for one lagging log. */
  function OverdueJobFor(r: LogRow, deadline: int): Job
    requires Resolvable(r)
  {
    var c := r.allocation.value.facilitator.value.user.value;
    OverdueReminder(c.email, c.name, r.week, r.allocationId, deadline)
  }

  /** The job one row contributes: its reminder if the facilitator resolves, else nothing. */
  function RowJobs(r: LogRow, deadline: int): seq<Job> {
    if Resolvable(r) then [OverdueJobFor(r, deadline)] else []
  }

  /** The jobs the scan enqueues while walking the query result in order. A log
      whose allocation row is missing throws at `log.Allocation.Facilitator`; the
      catch ends the scan, so nothing after it is enqueued. */
  function OverdueJobs(rows: seq<LogRow>, deadline: int): seq<Job> {
    if rows == [] || rows[0].allocation.None? then []
    else RowJobs(rows[0], deadline) + OverdueJobs(rows[1..], deadline)
  }

  /** One step of the scan at position `i`: a missing allocation ends it, any
      other row contributes its own job, if any, ahead of the rest. */
  lemma OverdueJobsStep(rows: seq<LogRow>, i: nat, deadline: int)
    requires i < |rows|
    ensures rows[i].allocation.None? ==> OverdueJobs(rows[i..], deadline) == []
    ensures rows[i].allocation.Some? ==>
      OverdueJobs(rows[i..], deadline) == RowJobs(rows[i], deadline) + OverdueJobs(rows[i + 1..], deadline)
  {
    assert rows[i..][0] == rows[i] && rows[i..][1..] == rows[i + 1..];
  }

  /** Everything one overdue scan enqueues at the instant `c`. */
  function ScanJobs(logs: seq<LogRow>, c: Clock): seq<Job> {
    OverdueJobs(OverdueQuery(logs, WeekOf(c)), DeadlineMs(c))
  }

  /** Every job of a scan is the `overdue-reminder` of some resolvable row, carrying the scan's deadline. */
  lemma {:induction false} OverdueJobsFromRows(rows: seq<LogRow>, deadline: int)
    ensures forall j :: j in OverdueJobs(rows, deadline) ==>
      j.OverdueReminder? && j.deadline == deadline &&
      exists r :: r in rows && Resolvable(r) && j == OverdueJobFor(r, deadline)
  {
    if rows != [] && rows[0].allocation.Some? {
      OverdueJobsFromRows(rows[1..], deadline);
      forall j | j in OverdueJobs(rows[1..], deadline)
        ensures exists r :: r in rows && Resolvable(r) && j == OverdueJobFor(r, deadline)
      {
        var r :| r in rows[1..] && Resolvable(r) && j == OverdueJobFor(r, deadline);
        assert r in rows;
      }
    }
  }

  /** When every lagging log still has its allocation row, the scan enqueues
      exactly one job per log whose facilitator has a User row. */
  lemma {:induction false} OverdueJobsCount(rows: seq<LogRow>, deadline: int)
    requires forall r :: r in rows ==> r.allocation.Some?
    ensures |OverdueJobs(rows, deadline)| == CountWhere(rows, Resolvable)
  {
    if rows != [] {
      assert rows[0] in rows;
      assert forall r :: r in rows[1..] ==> r in rows;
      OverdueJobsCount(rows[1..], deadline);
    }
  }

  /** Every job of a scan is about a log whose week is before the current week. */
  lemma ScanJobsAreOverdue(logs: seq<LogRow>, c: Clock)
    ensures forall j :: j in ScanJobs(logs, c) ==> j.OverdueReminder? && j.week < WeekOf(c) && j.deadline == DeadlineMs(c)
  {
    OverdueJobsFromRows(OverdueQuery(logs, WeekOf(c)), DeadlineMs(c));
  }

  /** A single log with a resolvable facilitator: one job when its week lags the
      current week (whatever its grading statuses), none in the current week. */
  lemma ScanOfOneLog(r: LogRow, c: Clock)
    requires Resolvable(r)
    ensures r.week < WeekOf(c) ==> ScanJobs([r], c) == [OverdueJobFor(r, DeadlineMs(c))]
    ensures r.week >= WeekOf(c) ==> ScanJobs([r], c) == []
  {
    assert [r][1..] == [];
    if r.week < WeekOf(c) {
      assert OverdueQuery([r], WeekOf(c)) == [r];
      assert OverdueJobs([r], DeadlineMs(c)) == [OverdueJobFor(r, DeadlineMs(c))] + OverdueJobs([], DeadlineMs(c));
    } else {
      assert OverdueQuery([r], WeekOf(c)) == [];
    }
  }

  // ---------------------------------------------------------------------------
  // The scan loop

  /** The loop of `checkOverdueLogs` over the query result `rows`. */
  method EnqueueOverdue(queue: JobQueue, rows: seq<LogRow>, deadline: int)
    modifies queue`jobs
    ensures queue.jobs == old(queue.jobs) + (if queue.available then OverdueJobs(rows, deadline) else [])
  {
    ghost var done: seq<Job> := [];
    var i := 0;
    while i < |rows|
      invariant 0 <= i <= |rows|
      invariant done + OverdueJobs(rows[i..], deadline) == OverdueJobs(rows, deadline)
      invariant queue.jobs == old(queue.jobs) + done
      invariant !queue.available ==> done == []
    {
      OverdueJobsStep(rows, i, deadline);
      if rows[i].allocation.None? {
        break;
      }
      var ok := EnqueueRow(queue, rows[i], deadline);
      if !ok {
        break;
      }
      assert (done + RowJobs(rows[i], deadline)) + OverdueJobs(rows[i + 1..], deadline)
          == done + (RowJobs(rows[i], deadline) + OverdueJobs(rows[i + 1..], deadline));
      done := done + RowJobs(rows[i], deadline);
      i := i + 1;
    }
    assert i == |rows| ==> rows[i..] == [];
  }

  /** One iteration: enqueue the row's reminder when its facilitator resolves. */
  method EnqueueRow(queue: JobQueue, row: LogRow, deadline: int) returns (ok: bool)
    modifies queue`jobs
    ensures ok ==> queue.jobs == old(queue.jobs) + RowJobs(row, deadline)
    ensures ok && !queue.available ==> RowJobs(row, deadline) == []
    ensures !ok ==> !queue.available && queue.jobs == old(queue.jobs)
  {
    ok := true;
    if Resolvable(row) {
      ok := queue.Add(OverdueJobFor(row, deadline));
    }
  }
}
