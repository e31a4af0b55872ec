/** The notification worker of services/NotificationWorker.js: a start/stop
    lifecycle held in `isRunning` and `checkInterval`, the hourly overdue scan
    and the weekly broadcast, both of which append reminder jobs to the queue.

    The database results the scans read are passed in as snapshots in query
    order: every activity log with its joined Allocation -> Facilitator -> User
    chain, and every facilitator with its User and its allocations. */
module NotificationWorker {
  import opened Common
  import opened Calendar
  import opened Jobs
  import opened Timers
  import opened OverdueScan

  /** One facilitator as the weekly query returns it, with the ids of its allocations. */
  datatype FacilitatorRow = FacilitatorRow(user: Option<Contact>, allocationIds: seq<Id>)

  // ---------------------------------------------------------------------------
  // The weekly broadcast

  /** `facilitator.User && facilitator.User.email && facilitator.Allocations.length > 0`. */
  predicate Eligible(f: FacilitatorRow) {
    f.user.Some? && f.user.value.email != "" && |f.allocationIds| > 0
  }

  /** One `weekly-reminder` per allocation id, in order. */
  function AllocationJobs(c: Contact, ids: seq<Id>, week: int): seq<Job> {
    seq(|ids|, i requires 0 <= i < |ids| => WeeklyReminder(c.email, c.name, week, ids[i]))
  }

  /** The jobs one facilitator contributes to the broadcast. */
  function FacilitatorJobs(f: FacilitatorRow, week: int): seq<Job> {
    if Eligible(f) then AllocationJobs(f.user.value, f.allocationIds, week) else []
  }

  /** The jobs one weekly broadcast enqueues, facilitator by facilitator. */
  function WeeklyJobs(fs: seq<FacilitatorRow>, week: int): seq<Job> {
    if fs == [] then [] else FacilitatorJobs(fs[0], week) + WeeklyJobs(fs[1..], week)
  }

  /** The broadcast over one more facilitator adds that facilitator's jobs at the end. */
  lemma {:induction false} WeeklyJobsAppend(fs: seq<FacilitatorRow>, f: FacilitatorRow, week: int)
    ensures WeeklyJobs(fs + [f], week) == WeeklyJobs(fs, week) + FacilitatorJobs(f, week)
  {
    if fs == [] {
      assert [f][1..] == [];
    } else {
      assert (fs + [f])[1..] == fs[1..] + [f];
      WeeklyJobsAppend(fs[1..], f, week);
    }
  }

  /** The broadcast over the first `i + 1` facilitators extends the one over the first `i`. */
  lemma WeeklyJobsPrefix(fs: seq<FacilitatorRow>, i: nat, week: int)
    requires i < |fs|
    ensures WeeklyJobs(fs[..i + 1], week) == WeeklyJobs(fs[..i], week) + FacilitatorJobs(fs[i], week)
  {
    assert fs[..i + 1] == fs[..i] + [fs[i]];
    WeeklyJobsAppend(fs[..i], fs[i], week);
  }

  /** Number of allocations over all eligible facilitators. */
  function EligibleAllocations(fs: seq<FacilitatorRow>): nat {
    if fs == [] then 0
    else (if Eligible(fs[0]) then |fs[0].allocationIds| else 0) + EligibleAllocations(fs[1..])
  }

  /** One job per allocation of each eligible facilitator, all for the given
      week and all addressed to a non-empty email. */
  lemma {:induction false} WeeklyJobsShape(fs: seq<FacilitatorRow>, week: int)
    ensures |WeeklyJobs(fs, week)| == EligibleAllocations(fs)
    ensures forall j :: j in WeeklyJobs(fs, week) ==> j.WeeklyReminder? && j.week == week && j.facilitatorEmail != ""
  {
    if fs != [] {
      WeeklyJobsShape(fs[1..], week);
      var head := FacilitatorJobs(fs[0], week);
      assert forall j :: j in head ==> j.WeeklyReminder? && j.week == week && j.facilitatorEmail != "";
    }
  }

  /** A facilitator with three allocations gets exactly three weekly jobs. */
  lemma ThreeAllocationsThreeJobs(f: FacilitatorRow, week: int)
    requires f.user.Some? && f.user.value.email != "" && |f.allocationIds| == 3
    ensures |WeeklyJobs([f], week)| == 3
  {
    WeeklyJobsShape([f], week);
  }

  // ---------------------------------------------------------------------------
  // The worker object

  class Worker {
    var isRunning: bool
    var checkInterval: Option<nat>

    /** Running exactly when the hourly scan interval is armed under `checkInterval`. */
    ghost predicate Valid(loop: EventLoop)
      reads this, loop
    {
      && loop.Valid()
      && (isRunning <==> checkInterval.Some?)
      && (checkInterval.Some? ==>
            checkInterval.value in loop.timers && loop.timers[checkInterval.value] == WorkerScan)
    }

    constructor ()
      ensures !isRunning && checkInterval == None
    {
      isRunning := false;
      checkInterval := None;
    }

    /** `start()`: a no-op while running; otherwise arm the hourly scan, run one
        scan at once and arm the weekly schedule. */
    method Start(loop: EventLoop, queue: JobQueue, logs: seq<LogRow>, clock: Clock)
      requires Valid(loop)
      modifies this, loop, queue`jobs
      ensures Valid(loop) && isRunning
      ensures old(isRunning) ==>
        && checkInterval == old(checkInterval)
        && loop.timers == old(loop.timers) && loop.nextHandle == old(loop.nextHandle)
        && queue.jobs == old(queue.jobs)
      ensures !old(isRunning) ==>
        && checkInterval == Some(old(loop.nextHandle))
        && loop.timers == old(loop.timers)[old(loop.nextHandle) := WorkerScan]
                                          [old(loop.nextHandle) + 1 := WorkerWeeklyTimeout(WeeklyDelay(clock))]
        && loop.nextHandle == old(loop.nextHandle) + 2
        && queue.jobs == old(queue.jobs) + (if queue.available then ScanJobs(logs, clock) else [])
    {
      if isRunning {
        return;
      }
      isRunning := true;
      var h := loop.Arm(WorkerScan);
      checkInterval := Some(h);
      CheckOverdueLogs(queue, logs, clock);
      ScheduleWeeklyReminders(loop, clock);
    }

    /** `stop()`: a no-op while stopped; otherwise clear the hourly interval.
        The weekly timeout and interval were never stored, so they stay armed. */
    method Stop(loop: EventLoop)
      requires Valid(loop)
      modifies this, loop
      ensures Valid(loop) && !isRunning && checkInterval == None
      ensures !old(isRunning) ==> loop.timers == old(loop.timers)
      ensures old(isRunning) ==> loop.timers == old(loop.timers) - {old(checkInterval).value}
      ensures loop.nextHandle == old(loop.nextHandle)
      ensures WeeklyHandles(loop.timers) == WeeklyHandles(old(loop.timers))
    {
      if !isRunning {
        return;
      }
      isRunning := false;
      if checkInterval.Some? {
        loop.Disarm(checkInterval.value);
        checkInterval := None;
      }
    }

    /** `checkOverdueLogs()`: enqueue one `overdue-reminder` per lagging log with a
        resolvable facilitator. A rejected `add` ends the scan (caught, logged). */
    method CheckOverdueLogs(queue: JobQueue, logs: seq<LogRow>, clock: Clock)
      modifies queue`jobs
      ensures queue.jobs == old(queue.jobs) + (if queue.available then ScanJobs(logs, clock) else [])
    {
      EnqueueOverdue(queue, OverdueQuery(logs, WeekOf(clock)), DeadlineMs(clock));
    }

    /** `scheduleWeeklyReminders()`: arm a one-shot timeout aimed at next Monday 09:00. */
    method ScheduleWeeklyReminders(loop: EventLoop, clock: Clock)
      requires loop.Valid()
      modifies loop
      ensures loop.Valid()
      ensures loop.timers == old(loop.timers)[old(loop.nextHandle) := WorkerWeeklyTimeout(WeeklyDelay(clock))]
      ensures loop.nextHandle == old(loop.nextHandle) + 1
    {
      var _ := loop.Arm(WorkerWeeklyTimeout(WeeklyDelay(clock)));
    }

    /** `sendWeeklyReminders()`: one `weekly-reminder` per allocation of every
        eligible facilitator, all for the current week. */
    method SendWeeklyReminders(queue: JobQueue, facilitators: seq<FacilitatorRow>, clock: Clock)
      modifies queue`jobs
      ensures queue.jobs == old(queue.jobs) + (if queue.available then WeeklyJobs(facilitators, WeekOf(clock)) else [])
    {
      EnqueueWeekly(queue, facilitators, WeekOf(clock));
    }

    /** The loop of `sendWeeklyReminders` over the facilitators, for the given week. */
    method EnqueueWeekly(queue: JobQueue, facilitators: seq<FacilitatorRow>, week: int)
      modifies queue`jobs
      ensures queue.jobs == old(queue.jobs) + (if queue.available then WeeklyJobs(facilitators, week) else [])
    {
      var i := 0;
      while i < |facilitators|
        invariant 0 <= i <= |facilitators|
        invariant queue.jobs == old(queue.jobs) + WeeklyJobs(facilitators[..i], week)
        invariant !queue.available ==> WeeklyJobs(facilitators[..i], week) == []
      {
        var ok := EnqueueFacilitator(queue, facilitators[i], week);
        if !ok {
          return;
        }
        WeeklyJobsPrefix(facilitators, i, week);
        i := i + 1;
      }
      assert facilitators[..i] == facilitators;
    }

    /** One iteration of the broadcast: a reminder per allocation of an eligible facilitator. */
    method EnqueueFacilitator(queue: JobQueue, f: FacilitatorRow, week: int) returns (ok: bool)
      modifies queue`jobs
      ensures ok ==> queue.jobs == old(queue.jobs) + FacilitatorJobs(f, week)
      ensures ok && !queue.available ==> FacilitatorJobs(f, week) == []
      ensures !ok ==> !queue.available && queue.jobs == old(queue.jobs)
    {
      ok := true;
      if !Eligible(f) {
        return;
      }
      var c := f.user.value;
      var j := 0;
      while j < |f.allocationIds|
        invariant 0 <= j <= |f.allocationIds|
        invariant queue.jobs == old(queue.jobs) + AllocationJobs(c, f.allocationIds[..j], week)
        invariant j > 0 ==> queue.available
      {
        ok := queue.Add(WeeklyReminder(c.email, c.name, week, f.allocationIds[j]));
        if !ok {
          return;
        }
        assert AllocationJobs(c, f.allocationIds[..j + 1], week)
            == AllocationJobs(c, f.allocationIds[..j], week) + [WeeklyReminder(c.email, c.name, week, f.allocationIds[j])];
        j := j + 1;
      }
      assert f.allocationIds[..j] == f.allocationIds;
    }

    /** A worker timer fires: the hourly interval scans; the weekly timeout is
        spent, broadcasts and arms the 7-day interval; that interval broadcasts. */
    method Fire(loop: EventLoop, h: nat, queue: JobQueue, logs: seq<LogRow>,
                facilitators: seq<FacilitatorRow>, clock: Clock)
      requires Valid(loop) && h in loop.timers && !loop.timers[h].ReminderScan?
      modifies loop, queue`jobs
      ensures Valid(loop)
      ensures old(loop.timers[h]) == WorkerScan ==>
        loop.timers == old(loop.timers) &&
        queue.jobs == old(queue.jobs) + (if queue.available then ScanJobs(logs, clock) else [])
      ensures old(loop.timers[h]).WorkerWeeklyTimeout? ==>
        loop.timers == (old(loop.timers) - {h})[old(loop.nextHandle) := WorkerWeeklyRepeat] &&
        queue.jobs == old(queue.jobs) + (if queue.available then WeeklyJobs(facilitators, WeekOf(clock)) else [])
      ensures old(loop.timers[h]) == WorkerWeeklyRepeat ==>
        loop.timers == old(loop.timers) &&
        queue.jobs == old(queue.jobs) + (if queue.available then WeeklyJobs(facilitators, WeekOf(clock)) else [])
    {
      match loop.timers[h]
      case WorkerScan =>
        CheckOverdueLogs(queue, logs, clock);
      case WorkerWeeklyTimeout(_) =>
        loop.Disarm(h);
        SendWeeklyReminders(queue, facilitators, clock);
        var _ := loop.Arm(WorkerWeeklyRepeat);
      case WorkerWeeklyRepeat =>
        SendWeeklyReminders(queue, facilitators, clock);
    }
  }

  /** A fresh worker started, stopped and started again leaves two weekly
      schedules armed: `stop` cannot cancel the first one. */
  method StartStopStart(queue: JobQueue, logs: seq<LogRow>, clock: Clock)
    returns (worker: Worker, loop: EventLoop)
    modifies queue`jobs
    ensures worker.isRunning
    ensures WeeklyHandles(loop.timers) == {1, 3}
    ensures loop.timers == map[1 := WorkerWeeklyTimeout(WeeklyDelay(clock)), 2 := WorkerScan,
                               3 := WorkerWeeklyTimeout(WeeklyDelay(clock))]
  {
    loop := new EventLoop();
    worker := new Worker();
    worker.Start(loop, queue, logs, clock);
    worker.Stop(loop);
    worker.Start(loop, queue, logs, clock);
    assert loop.timers == map[1 := WorkerWeeklyTimeout(WeeklyDelay(clock)), 2 := WorkerScan,
                              3 := WorkerWeeklyTimeout(WeeklyDelay(clock))];
  }
}
