/** The reminder queue (`log-reminders`) seen as an append-only sequence of
    jobs, each a kind with its payload. Leases, persistence and retries belong to
    the queue library and are not part of this model. */
module Jobs {
  import opened Common

  /** The e-mail address and display name joined from a `User` row. */
  datatype Contact = Contact(email: string, name: string)

  /** Payload of `log-submitted` and `grading-updated`. */
  datatype Notice = Notice(
    facilitatorEmail: string, facilitatorName: string, week: int,
    allocationId: Id, message: string, subject: Field)

  /** The four job kinds with their payloads. `deadline` is the deadline
      instant in epoch milliseconds. */
  datatype Job =
    | LogSubmitted(notice: Notice)
    | GradingUpdated(notice: Notice)
    | OverdueReminder(facilitatorEmail: string, facilitatorName: string, week: int, allocationId: Id, deadline: int)
    | WeeklyReminder(facilitatorEmail: string, facilitatorName: string, week: int, allocationId: Id)

  /** The job-kind names used with `reminderQueue.add` and `reminderQueue.process`. */
  function KindName(j: Job): string {
    match j
    case LogSubmitted(_) => "log-submitted"
    case GradingUpdated(_) => "grading-updated"
    case OverdueReminder(_, _, _, _, _) => "overdue-reminder"
    case WeeklyReminder(_, _, _, _) => "weekly-reminder"
  }

  /** The queue. `available` is false while its backing store is unreachable,
      in which case `add` rejects and nothing is enqueued. */
  class JobQueue {
    var jobs: seq<Job>
    var available: bool

    constructor (available: bool)
      ensures jobs == [] && this.available == available
    {
      jobs := [];
      this.available := available;
    }

    /** `reminderQueue.add(kind, payload)`. */
    method Add(j: Job) returns (ok: bool)
      modifies this`jobs
      ensures ok == available
      ensures jobs == if ok then old(jobs) + [j] else old(jobs)
    {
      ok := available;
      if ok {
        jobs := jobs + [j];
      }
    }
  }

  /** States a listed job can be in; `Other` covers states not counted by the stats. */
  datatype JobState = Waiting | Active | Completed | Failed | Other

  /** The object `getQueueStats` returns. */
  datatype QueueStats = QueueStats(waiting: nat, active: nat, completed: nat, failed: nat)

  function CountState(states: seq<JobState>, s: JobState): (n: nat)
    ensures n <= |states|
  {
    if states == [] then 0
    else (if states[0] == s then 1 else 0) + CountState(states[1..], s)
  }

  /** `getQueueStats()`: the four counts of the current job listing, or `null`
      when listing fails (`None`). */
  function GetQueueStats(listing: Option<seq<JobState>>): (r: Option<QueueStats>)
    ensures r.None? <==> listing.None?
    ensures r.Some? ==> r.value.waiting + r.value.active + r.value.completed + r.value.failed
                        + CountState(listing.value, Other) == |listing.value|
  {
    match listing
    case None => None
    case Some(states) =>
      StatesPartition(states);
      Some(QueueStats(CountState(states, Waiting), CountState(states, Active),
                      CountState(states, Completed), CountState(states, Failed)))
  }

  /** Every listed job is counted in exactly one state. */
  lemma {:induction false} StatesPartition(states: seq<JobState>)
    ensures CountState(states, Waiting) + CountState(states, Active) + CountState(states, Completed)
            + CountState(states, Failed) + CountState(states, Other) == |states|
  {
    if states != [] {
      StatesPartition(states[1..]);
    }
  }
}
