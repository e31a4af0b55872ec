/** The job handlers of services/Reminder.js and its module-level overdue scan.

    Each handler e-mails the facilitator named in the job and, except for the
    weekly reminder, then e-mails every manager whose User row has an email.
    `sendEmail` swallows its own transport errors, so a handler only stops early
    when `Manager.findAll` throws; the handler's catch then ends the job. The
    manager query result is passed in: `None` when it throws, otherwise the rows
    in query order. A handler returns the e-mails it sends, in order. */
module Reminder {
  import opened Common
  import opened Calendar
  import opened Jobs
  import opened Timers
  import opened OverdueScan

  /** One `sendEmail(to, subject, text)` call. */
  datatype Email = Email(to: string, subject: string, body: string)

  /** A manager with its joined User row, if any. */
  datatype ManagerRow = ManagerRow(user: Option<Contact>)

  /** `manager.User && manager.User.email`. */
  predicate HasEmail(m: ManagerRow) {
    m.user.Some? && m.user.value.email != ""
  }

  // ---------------------------------------------------------------------------
  // Subjects

  /** Default subject of the `log-submitted` e-mail to the facilitator. */
  const LOG_SUBMITTED_SUBJECT := "Log Submission Confirmation"
  const LOG_SUBMITTED_MANAGER_SUBJECT := "Activity Log Submitted - Manager Notification"
  /** Default subject of the `grading-updated` e-mail to the facilitator. */
  const GRADING_SUBJECT := "Grading Status Updated"
  const GRADING_MANAGER_SUBJECT := "Grading Status Updated - Manager Notification"
  const OVERDUE_SUBJECT := "URGENT: Overdue Activity Log Reminder"
  const OVERDUE_MANAGER_SUBJECT := "URGENT: Overdue Activity Log Alert"
  const WEEKLY_SUBJECT := "Weekly Activity Log Reminder"

  // ---------------------------------------------------------------------------
  // Message texts, each the template of the source with its fixed pieces named

  const FACILITATOR := "Facilitator "
  const FOR_WEEK := " for week "
  const ALLOCATION := " (Allocation: "
  const SUBMITTED := " has submitted their activity log"
  const GRADED := " has updated grading status"
  const OVERDUE := " has an overdue activity log"
  const OVERDUE_DEADLINE := "). Deadline was "
  const DEAR := "Dear "
  const OVERDUE_OPENING := ",\n\nThis is a reminder that your activity log for week "
  const OVERDUE_MIDDLE := ") is overdue. The deadline was "
  const OVERDUE_CLOSING := ".\n\nPlease submit your log as soon as possible.\n\nBest regards,\nCourse Management Platform"
  const WEEKLY_OPENING := ",\n\nThis is a friendly reminder to submit your activity log for week "
  const WEEKLY_CLOSING :=
    ").\n\nThe deadline is approaching. Please ensure all grading, moderation, and sync tasks are completed and logged.\n\nBest regards,\nCourse Management Platform"

  function SubmittedAlert(n: Notice): string {
    FACILITATOR + n.facilitatorName + SUBMITTED + FOR_WEEK + ShowInt(n.week) + ALLOCATION + n.allocationId + ")"
  }

  function GradingAlert(n: Notice): string {
    FACILITATOR + n.facilitatorName + GRADED + FOR_WEEK + ShowInt(n.week) + ALLOCATION + n.allocationId + ")"
  }

  function OverdueLetter(name: string, week: int, allocationId: Id, deadline: string): string {
    DEAR + name + OVERDUE_OPENING + ShowInt(week) + ALLOCATION + allocationId + OVERDUE_MIDDLE + deadline + OVERDUE_CLOSING
  }

  function OverdueAlert(name: string, week: int, allocationId: Id, deadline: string): string {
    FACILITATOR + name + OVERDUE + FOR_WEEK + ShowInt(week) + ALLOCATION + allocationId + OVERDUE_DEADLINE + deadline + "."
  }

  function WeeklyLetter(name: string, week: int, allocationId: Id): string {
    DEAR + name + WEEKLY_OPENING + ShowInt(week) + ALLOCATION + allocationId + WEEKLY_CLOSING
  }

  // ---------------------------------------------------------------------------
  // The manager fan-out

  /** The e-mail the manager loop sends to one manager: one if it has an email, else none. */
  function ManagerSend(m: ManagerRow, subject: string, body: string): seq<Email> {
    if HasEmail(m) then [Email(m.user.value.email, subject, body)] else []
  }

  /** The e-mails of the manager loop: one per manager with an email, in query order. */
  function ManagerSends(managers: seq<ManagerRow>, subject: string, body: string): seq<Email> {
    if managers == [] then [] else ManagerSend(managers[0], subject, body) + ManagerSends(managers[1..], subject, body)
  }

  /** The manager e-mails of a handler: none when `Manager.findAll` throws. */
  function Fanout(managers: Option<seq<ManagerRow>>, subject: string, body: string): seq<Email> {
    if managers.None? then [] else ManagerSends(managers.value, subject, body)
  }

  /** The loop over one more manager adds that manager's e-mail at the end. */
  lemma {:induction false} ManagerSendsAppend(managers: seq<ManagerRow>, m: ManagerRow, subject: string, body: string)
    ensures ManagerSends(managers + [m], subject, body) == ManagerSends(managers, subject, body) + ManagerSend(m, subject, body)
  {
    if managers == [] {
      assert [m][1..] == [];
    } else {
      assert (managers + [m])[1..] == managers[1..] + [m];
      ManagerSendsAppend(managers[1..], m, subject, body);
    }
  }

  /** One e-mail per manager that has an email. */
  lemma {:induction false} ManagerSendsCount(managers: seq<ManagerRow>, subject: string, body: string)
    ensures |ManagerSends(managers, subject, body)| == CountWhere(managers, HasEmail)
  {
    if managers != [] {
      ManagerSendsCount(managers[1..], subject, body);
    }
  }

  /** The addresses of the managers that have one. */
  function ManagerAddresses(managers: seq<ManagerRow>): set<string> {
    set m | m in managers && HasEmail(m) :: m.user.value.email
  }

  /** Every manager e-mail carries the handler's subject and text and goes to a
      manager's address, and every manager address gets one. */
  lemma {:induction false} ManagerSendsSound(managers: seq<ManagerRow>, subject: string, body: string)
    ensures forall e :: e in ManagerSends(managers, subject, body) ==>
      e.subject == subject && e.body == body && e.to in ManagerAddresses(managers)
    ensures forall a :: a in ManagerAddresses(managers) ==>
      Email(a, subject, body) in ManagerSends(managers, subject, body)
  {
    if managers != [] {
      ManagerSendsSound(managers[1..], subject, body);
      assert ManagerAddresses(managers)
          == (if HasEmail(managers[0]) then {managers[0].user.value.email} else {}) + ManagerAddresses(managers[1..]);
    }
  }

  /** Each address receives as many e-mails as there are managers with that
      address; so with distinct addresses every manager gets exactly one, and a
      manager without a User row or email gets none. */
  lemma {:induction false} ManagerSendsPerAddress(managers: seq<ManagerRow>, subject: string, body: string, address: string)
    ensures CountWhere(ManagerSends(managers, subject, body), (e: Email) => e.to == address)
         == CountWhere(managers, (m: ManagerRow) => HasEmail(m) && m.user.value.email == address)
  {
    if managers != [] {
      ManagerSendsPerAddress(managers[1..], subject, body, address);
      CountWhereAppend(ManagerSend(managers[0], subject, body), ManagerSends(managers[1..], subject, body),
                       (e: Email) => e.to == address);
    }
  }

  /** The manager loop of a handler. */
  method NotifyManagers(managers: seq<ManagerRow>, subject: string, body: string) returns (sends: seq<Email>)
    ensures sends == ManagerSends(managers, subject, body)
  {
    sends := [];
    var i := 0;
    while i < |managers|
      invariant 0 <= i <= |managers|
      invariant sends == ManagerSends(managers[..i], subject, body)
    {
      assert managers[..i + 1] == managers[..i] + [managers[i]];
      ManagerSendsAppend(managers[..i], managers[i], subject, body);
      if HasEmail(managers[i]) {
        sends := sends + [Email(managers[i].user.value.email, subject, body)];
      }
      i := i + 1;
    }
    assert managers[..i] == managers;
  }

  /** `Manager.findAll` followed by the manager loop; nothing when the query throws. */
  method NotifyAllManagers(managers: Option<seq<ManagerRow>>, subject: string, body: string) returns (sends: seq<Email>)
    ensures sends == Fanout(managers, subject, body)
  {
    sends := [];
    if managers.Some? {
      sends := NotifyManagers(managers.value, subject, body);
    }
  }

  // ---------------------------------------------------------------------------
  // The four handlers

  /** What a `log-submitted` or `grading-updated` handler sends: the payload's
      message to the facilitator under `subject || defaultSubject`, then the
      manager fan-out. */
  function NoticeSends(n: Notice, managers: Option<seq<ManagerRow>>, defaultSubject: string,
                       managerSubject: string, alert: string): seq<Email> {
    [Email(n.facilitatorEmail, OrElse(n.subject, defaultSubject), n.message)] + Fanout(managers, managerSubject, alert)
  }

  /** What the `overdue-reminder` handler sends; `deadline` is the rendered deadline date. */
  function OverdueSends(email: string, name: string, week: int, allocationId: Id, deadline: string,
                        managers: Option<seq<ManagerRow>>): seq<Email> {
    [Email(email, OVERDUE_SUBJECT, OverdueLetter(name, week, allocationId, deadline))]
    + Fanout(managers, OVERDUE_MANAGER_SUBJECT, OverdueAlert(name, week, allocationId, deadline))
  }

  /** `log-submitted`: the confirmation to the facilitator, then the manager notifications. */
  method HandleLogSubmitted(n: Notice, managers: Option<seq<ManagerRow>>) returns (sends: seq<Email>)
    ensures sends == NoticeSends(n, managers, LOG_SUBMITTED_SUBJECT, LOG_SUBMITTED_MANAGER_SUBJECT, SubmittedAlert(n))
  {
    sends := [Email(n.facilitatorEmail, OrElse(n.subject, LOG_SUBMITTED_SUBJECT), n.message)];
    var rest := NotifyAllManagers(managers, LOG_SUBMITTED_MANAGER_SUBJECT, SubmittedAlert(n));
    sends := sends + rest;
  }

  /** `grading-updated`: the update notice to the facilitator, then the manager notifications. */
  method HandleGradingUpdated(n: Notice, managers: Option<seq<ManagerRow>>) returns (sends: seq<Email>)
    ensures sends == NoticeSends(n, managers, GRADING_SUBJECT, GRADING_MANAGER_SUBJECT, GradingAlert(n))
  {
    sends := [Email(n.facilitatorEmail, OrElse(n.subject, GRADING_SUBJECT), n.message)];
    var rest := NotifyAllManagers(managers, GRADING_MANAGER_SUBJECT, GradingAlert(n));
    sends := sends + rest;
  }

  /** `overdue-reminder`: the urgent reminder to the facilitator, then the urgent manager alerts. */
  method HandleOverdueReminder(email: string, name: string, week: int, allocationId: Id, deadline: string,
                               managers: Option<seq<ManagerRow>>) returns (sends: seq<Email>)
    ensures sends == OverdueSends(email, name, week, allocationId, deadline, managers)
  {
    var message := OverdueLetter(name, week, allocationId, deadline);
    sends := [Email(email, OVERDUE_SUBJECT, message)];
    var rest := NotifyAllManagers(managers, OVERDUE_MANAGER_SUBJECT, OverdueAlert(name, week, allocationId, deadline));
    sends := sends + rest;
  }

  /** `weekly-reminder`: one e-mail to the facilitator and no manager query. */
  method HandleWeeklyReminder(email: string, name: string, week: int, allocationId: Id) returns (sends: seq<Email>)
    ensures sends == [Email(email, WEEKLY_SUBJECT, WeeklyLetter(name, week, allocationId))]
  {
    var message := WeeklyLetter(name, week, allocationId);
    sends := [Email(email, WEEKLY_SUBJECT, message)];
  }

  /** The facilitator address a job is for. */
  function Addressee(j: Job): string {
    match j
    case LogSubmitted(n) => n.facilitatorEmail
    case GradingUpdated(n) => n.facilitatorEmail
    case OverdueReminder(email, _, _, _, _) => email
    case WeeklyReminder(email, _, _, _) => email
  }

  /** The e-mails the handler registered for the job's kind sends.
      `dateString` renders the payload's deadline instant as `toDateString` does. */
  function JobSends(j: Job, managers: Option<seq<ManagerRow>>, dateString: int -> string): seq<Email> {
    match j
    case LogSubmitted(n) =>
      NoticeSends(n, managers, LOG_SUBMITTED_SUBJECT, LOG_SUBMITTED_MANAGER_SUBJECT, SubmittedAlert(n))
    case GradingUpdated(n) =>
      NoticeSends(n, managers, GRADING_SUBJECT, GRADING_MANAGER_SUBJECT, GradingAlert(n))
    case OverdueReminder(email, name, week, allocationId, deadline) =>
      OverdueSends(email, name, week, allocationId, dateString(deadline), managers)
    case WeeklyReminder(email, name, week, allocationId) =>
      [Email(email, WEEKLY_SUBJECT, WeeklyLetter(name, week, allocationId))]
  }

  /** The queue's dispatch of a job to the handler registered for its kind. */
  method Process(j: Job, managers: Option<seq<ManagerRow>>, dateString: int -> string) returns (sends: seq<Email>)
    ensures sends == JobSends(j, managers, dateString)
  {
    match j
    case LogSubmitted(n) =>
      sends := HandleLogSubmitted(n, managers);
    case GradingUpdated(n) =>
      sends := HandleGradingUpdated(n, managers);
    case OverdueReminder(email, name, week, allocationId, deadline) =>
      sends := HandleOverdueReminder(email, name, week, allocationId, dateString(deadline), managers);
    case WeeklyReminder(email, name, week, allocationId) =>
      sends := HandleWeeklyReminder(email, name, week, allocationId);
  }

  /** Every job first e-mails its facilitator. The weekly reminder stops there, as
      does any handler whose manager query throws; otherwise each manager with an
      email gets one more e-mail, and nobody else does. */
  lemma JobSendsShape(j: Job, managers: Option<seq<ManagerRow>>, dateString: int -> string)
    ensures |JobSends(j, managers, dateString)| >= 1 && JobSends(j, managers, dateString)[0].to == Addressee(j)
    ensures j.WeeklyReminder? || managers.None? ==> |JobSends(j, managers, dateString)| == 1
    ensures !j.WeeklyReminder? && managers.Some? ==>
      |JobSends(j, managers, dateString)| == 1 + CountWhere(managers.value, HasEmail)
    ensures managers.Some? ==> forall k :: 1 <= k < |JobSends(j, managers, dateString)| ==>
      JobSends(j, managers, dateString)[k].to in ManagerAddresses(managers.value)
  {
    var sends := JobSends(j, managers, dateString);
    match j
    case LogSubmitted(n) =>
      FanoutFacts(sends, sends[0], managers, LOG_SUBMITTED_MANAGER_SUBJECT, SubmittedAlert(n));
    case GradingUpdated(n) =>
      FanoutFacts(sends, sends[0], managers, GRADING_MANAGER_SUBJECT, GradingAlert(n));
    case OverdueReminder(_, name, week, allocationId, deadline) =>
      FanoutFacts(sends, sends[0], managers, OVERDUE_MANAGER_SUBJECT, OverdueAlert(name, week, allocationId, dateString(deadline)));
    case WeeklyReminder(_, _, _, _) =>
  }

  /** What a handler's result `[first] + Fanout(...)` says about its manager part. */
  lemma FanoutFacts(sends: seq<Email>, first: Email, managers: Option<seq<ManagerRow>>, subject: string, body: string)
    requires sends == [first] + Fanout(managers, subject, body)
    ensures managers.None? ==> |sends| == 1
    ensures managers.Some? ==> |sends| == 1 + CountWhere(managers.value, HasEmail)
    ensures managers.Some? ==> forall k :: 1 <= k < |sends| ==> sends[k].to in ManagerAddresses(managers.value)
  {
    if managers.Some? {
      ManagerSendsCount(managers.value, subject, body);
      ManagerSendsSound(managers.value, subject, body);
      var ms := ManagerSends(managers.value, subject, body);
      assert sends[1..] == ms;
      forall k | 1 <= k < |sends|
        ensures sends[k].to in ManagerAddresses(managers.value)
      {
        assert sends[k] == ms[k - 1] && ms[k - 1] in ms;
      }
    }
  }

  /** The overdue reminder cites the week, the allocation and the deadline. */
  lemma OverdueLetterCites(name: string, week: int, allocationId: Id, deadline: string)
    ensures Contains(OverdueLetter(name, week, allocationId, deadline), ShowInt(week))
    ensures Contains(OverdueLetter(name, week, allocationId, deadline), allocationId)
    ensures Contains(OverdueLetter(name, week, allocationId, deadline), deadline)
  {
    var w := ShowInt(week);
    var t0 := DEAR + name + OVERDUE_OPENING;
    var t1 := t0 + w;
    var t2 := t1 + ALLOCATION;
    var t3 := t2 + allocationId;
    var t4 := t3 + OVERDUE_MIDDLE;
    var t5 := t4 + deadline;
    var tail := OVERDUE_CLOSING;
    ContainsItself(w);
    ContainsAfter(t0, w, w);
    ContainsBefore(t1, ALLOCATION, w);
    ContainsBefore(t2, allocationId, w);
    ContainsBefore(t3, OVERDUE_MIDDLE, w);
    ContainsBefore(t4, deadline, w);
    ContainsBefore(t5, tail, w);
    ContainsItself(allocationId);
    ContainsAfter(t2, allocationId, allocationId);
    ContainsBefore(t3, OVERDUE_MIDDLE, allocationId);
    ContainsBefore(t4, deadline, allocationId);
    ContainsBefore(t5, tail, allocationId);
    ContainsItself(deadline);
    ContainsAfter(t4, deadline, deadline);
    ContainsBefore(t5, tail, deadline);
  }

  // ---------------------------------------------------------------------------
  // The module-level overdue scan

  /** The module-level `checkOverdueLogs`: the same query and enqueue rule as the worker's scan. */
  method CheckOverdueLogs(queue: JobQueue, logs: seq<LogRow>, clock: Clock)
    modifies queue`jobs
    ensures queue.jobs == old(queue.jobs) + (if queue.available then ScanJobs(logs, clock) else [])
  {
    EnqueueOverdue(queue, OverdueQuery(logs, WeekOf(clock)), DeadlineMs(clock));
  }

  /** Loading the module arms the hourly scan interval and runs one scan at once. */
  method Load(loop: EventLoop, queue: JobQueue, logs: seq<LogRow>, clock: Clock) returns (h: nat)
    requires loop.Valid()
    modifies loop, queue`jobs
    ensures loop.Valid()
    ensures h == old(loop.nextHandle) && loop.timers == old(loop.timers)[h := ReminderScan]
    ensures queue.jobs == old(queue.jobs) + (if queue.available then ScanJobs(logs, clock) else [])
  {
    h := loop.Arm(ReminderScan);
    CheckOverdueLogs(queue, logs, clock);
  }

  /** The module's hourly interval fires: one more scan, with the interval left armed. */
  method Fire(loop: EventLoop, h: nat, queue: JobQueue, logs: seq<LogRow>, clock: Clock)
    requires loop.Valid() && h in loop.timers && loop.timers[h] == ReminderScan
    modifies queue`jobs
    ensures loop.timers == old(loop.timers)
    ensures queue.jobs == old(queue.jobs) + (if queue.available then ScanJobs(logs, clock) else [])
  {
    CheckOverdueLogs(queue, logs, clock);
  }
}
