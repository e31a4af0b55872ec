# Course-management platform: a Dafny model of its request rules and reminder scheduler

The course-management platform is an Express/Sequelize REST API. Facilitators
teach modules to classes ("allocations") and file a weekly activity log for each
allocation; managers oversee them; students belong to classes and cohorts. A
background notification worker and a set of Bull queue handlers remind
facilitators of lagging logs and notify every manager of submissions and grading
changes.

This project models the rule-based core of that system. The relational store is
a set of keyed tables (`Store.Table`, a map from primary key to record). The
reminder queue is an append-only sequence of jobs (`Jobs.JobQueue`). The event
loop's timers are an explicit map from handle to timer (`Timers.EventLoop`).
"Now" is a `Calendar.Clock` passed in. Query results the services read are
snapshots passed in, in query order. `bcrypt`, `jwt.verify` and the token step
are parameters.

Files and modules:

- `common.dfy` (`Common`): optional request fields, JavaScript truthiness, the `a || b` merge, HTTP replies, decimal rendering.
- `store.dfy` (`Store`): records, tables, `findOne`/`findAll`.
- `calendar.dfy` (`Calendar`): current week, Monday deadline, delay to next Monday 09:00, `isLogLate`.
- `jobs.dfy` (`Jobs`): job kinds and payloads, the queue, `getQueueStats`.
- `timers.dfy` (`Timers`): `setInterval`/`setTimeout`/`clearInterval`.
- `overdue.dfy` (`OverdueScan`): the hourly overdue scan. The worker and `Reminder.js` both contain it.
- `worker.dfy` (`NotificationWorker`): the worker object, its lifecycle and the weekly broadcast.
- `reminder.dfy` (`Reminder`): the four job handlers with the manager fan-out, and the module-level scan.
- `activity_log.dfy`, `allocation.dfy`, `auth.dfy`, `student.dfy`, `facilitator.dfy`, `manager.dfy`, `class_controller.dfy`, `module_controller.dfy`: one module per controller.
- `authentication.dfy`, `authorization.dfy`: the middleware.
- `routes.dfy` (`Routes`): the student, activity-log and manager routers as route tables, with dispatch through `protect` and the role gates.

State-changing operations are methods on a `Table`, `JobQueue`, `EventLoop` or
`Worker`. Most of them are proved equal to a specification function over the
old state (for example `Effect(r, table.rows) == UpdateEffect(old(table.rows), ...)`).
The properties are proved about that function: the error cases, which columns
change, and preserved invariants such as e-mail uniqueness.

## Model

| member | source | states |
|---|---|---|
| Common.ShowNatInjective | controllers/activityLogController.js:39 | the decimal rendering of `${week}` is injective, so a message citing a rendered week names that week and no other |
| Common.ShowIntInjective | services/Reminder.js:67 | the same for any integer, sign included |
| Store.FindOne | controllers/studentController.js:10 | `findOne` finds nothing exactly when no row satisfies the condition; a row it returns satisfies it |
| Store.FindByPk | controllers/classController.js:31-44 | a by-id read answers 404 with its "not found" message exactly for an unknown id, and otherwise 200 with that row unchanged; `getClassById` and `getModuleById` (controllers/moduleController.js:26-39) are this read |
| Store.FindAll | controllers/allocationController.js:128-130 | `findAll` returns exactly the rows satisfying the condition, unchanged |
| Store.Table.Create | controllers/classController.js:8-12 | `create` adds the row under its new key; a key already present writes nothing and fails |
| Store.Table.Save | controllers/classController.js:61 | `save` replaces the one row and leaves the rest of the table as it was |
| Store.Table.Destroy | controllers/classController.js:78 | `destroy` removes exactly that row |
| Calendar.CurrentWeekIsCeiling | services/NotificationWorker.js:51 | the current week is the ceiling of elapsed weeks: the least w with elapsed <= w weeks |
| Calendar.CurrentWeekZeroOnlyAtNewYear | services/NotificationWorker.js:51 | the week is 0 exactly at local 1 January 00:00 and at least 1 afterwards |
| Calendar.CurrentWeekMonotonic | services/NotificationWorker.js:107 | the week never decreases as time advances within a year |
| Calendar.CurrentWeekExamples | services/Reminder.js:116 | one second in is week 1, exactly seven days in is still week 1, one millisecond later is week 2 |
| Calendar.DeadlineOffset | services/NotificationWorker.js:52-53 | `(day + 6) % 7` is below 7, lands on a Monday, is 0 exactly on a Monday, and is the nearest Monday back |
| Calendar.NextMondayOffset | services/NotificationWorker.js:90 | `(8 - day) % 7` is below 7, lands on a Monday, is 0 exactly on a Monday, and is the nearest Monday ahead |
| Calendar.WeeklyDelayLandsOnMonday | services/NotificationWorker.js:88-93 | the timeout targets 09:00 of a Monday at most 6 days 9 hours ahead; the delay is <= 0 exactly on a Monday at or after 09:00 |
| Calendar.IsLogLateIffNotMonday | controllers/activityLogController.js:5-10 | `isLogLate` ignores its week and is true exactly when today is not a Monday |
| Calendar.DeadlineOnWednesday | services/Reminder.js:117-118 | on a Wednesday the deadline is the same week's Monday, two days back |
| Jobs.JobQueue.Add | services/NotificationWorker.js:72-78 | `add` appends the job exactly when the queue is reachable, and otherwise enqueues nothing |
| Jobs.GetQueueStats | services/NotificationWorker.js:136-153 | `null` exactly when listing fails; otherwise the four counts plus uncounted states add up to the jobs listed |
| Jobs.StatesPartition | services/NotificationWorker.js:143-148 | every listed job is counted in exactly one state |
| Timers.EventLoop.Arm | services/NotificationWorker.js:22-24 | `setInterval`/`setTimeout` arm the timer under a handle not in use and keep every other timer |
| Timers.EventLoop.Disarm | services/NotificationWorker.js:41-43 | `clearInterval` removes exactly that handle |
| OverdueScan.OverdueQuery | services/NotificationWorker.js:55-66 | the query keeps exactly the logs whose week is before the current week |
| OverdueScan.OverdueJobsStep | services/NotificationWorker.js:70-80 | a log with a missing allocation ends the scan; any other log contributes its own job ahead of the rest |
| OverdueScan.OverdueJobsFromRows | services/NotificationWorker.js:71-78 | every scan job is the `overdue-reminder` of a log whose facilitator and User resolve, with the scan's deadline |
| OverdueScan.OverdueJobsCount | services/NotificationWorker.js:70-80 | with every allocation present, one job per log whose facilitator has a User (the email is not checked) |
| OverdueScan.ScanJobsAreOverdue | services/NotificationWorker.js:51-78 | every job of a scan is about a log of an earlier week and carries the Monday deadline |
| OverdueScan.ScanOfOneLog | services/NotificationWorker.js:55-80 | a resolvable log yields one reminder if its week lags, none in the current week |
| OverdueScan.EnqueueOverdue | services/NotificationWorker.js:70-83 | the loop appends exactly the scan's jobs in query order, or nothing when the queue rejects |
| OverdueScan.EnqueueRow | services/NotificationWorker.js:71-79 | one iteration enqueues the log's reminder only when its facilitator and User resolve |
| NotificationWorker.WeeklyJobsAppend | services/NotificationWorker.js:116-127 | the broadcast over one more facilitator appends that facilitator's jobs |
| NotificationWorker.WeeklyJobsPrefix | services/NotificationWorker.js:116-127 | the broadcast over the first i + 1 facilitators extends the one over the first i |
| NotificationWorker.WeeklyJobsShape | services/NotificationWorker.js:116-126 | one `weekly-reminder` per allocation of each eligible facilitator, all for the current week and all to a non-empty email |
| NotificationWorker.ThreeAllocationsThreeJobs | services/NotificationWorker.js:117-125 | a facilitator with a User, an email and three allocations gets exactly three jobs |
| NotificationWorker.Worker.constructor | services/NotificationWorker.js:6-9 | a new worker is stopped with no interval |
| NotificationWorker.Worker.Start | services/NotificationWorker.js:12-31 | while running, a no-op; otherwise running, the hourly interval stored, exactly one scan, and the weekly timeout armed |
| NotificationWorker.Worker.Stop | services/NotificationWorker.js:34-46 | while stopped, a no-op; otherwise stopped, the interval cleared and null, and the weekly timers untouched |
| NotificationWorker.Worker.CheckOverdueLogs | services/NotificationWorker.js:49-84 | the scan appends exactly the overdue jobs of the snapshot at that instant |
| NotificationWorker.Worker.ScheduleWeeklyReminders | services/NotificationWorker.js:87-102 | arms one timeout whose delay is the time to next Monday 09:00 |
| NotificationWorker.Worker.SendWeeklyReminders | services/NotificationWorker.js:105-133 | appends exactly the weekly jobs for the current week |
| NotificationWorker.Worker.EnqueueWeekly | services/NotificationWorker.js:116-127 | the facilitator loop appends the broadcast jobs in order |
| NotificationWorker.Worker.EnqueueFacilitator | services/NotificationWorker.js:117-126 | the inner loop appends one job per allocation of an eligible facilitator, and nothing for any other |
| NotificationWorker.Worker.Fire | services/NotificationWorker.js:95-101 | the hourly interval scans; the timeout broadcasts and is replaced by a 7-day interval; that interval broadcasts |
| NotificationWorker.StartStopStart | services/NotificationWorker.js:95-101 | start, stop, start leaves two weekly timeouts armed, because `stop` cannot reach them |
| Reminder.ManagerSendsAppend | services/Reminder.js:20-29 | the manager loop over one more manager appends that manager's e-mail |
| Reminder.ManagerSendsCount | services/Reminder.js:20-29 | one e-mail per manager whose User has an email |
| Reminder.ManagerSendsSound | services/Reminder.js:20-29 | every manager e-mail has the handler's subject and text and goes to a manager address, and every such address gets one |
| Reminder.ManagerSendsPerAddress | services/Reminder.js:48-57 | each address gets as many e-mails as managers with that address; managers without User or email get none |
| Reminder.NotifyManagers | services/Reminder.js:81-90 | the loop sends exactly the fan-out in query order |
| Reminder.NotifyAllManagers | services/Reminder.js:44-57 | a throwing `Manager.findAll` sends nothing to managers |
| Reminder.HandleLogSubmitted | services/Reminder.js:7-33 | sends the facilitator the message under `subject \|\| 'Log Submission Confirmation'`, then the manager notifications |
| Reminder.HandleGradingUpdated | services/Reminder.js:35-61 | sends the facilitator the message under `subject \|\| 'Grading Status Updated'`, then the manager notifications |
| Reminder.HandleOverdueReminder | services/Reminder.js:63-94 | sends the urgent reminder to the facilitator, then the urgent alert to each manager |
| Reminder.HandleWeeklyReminder | services/Reminder.js:96-111 | sends one e-mail, to the facilitator, with no manager query |
| Reminder.Process | services/Reminder.js:7-111 | each job kind is handled by its own handler |
| Reminder.JobSendsShape | services/Reminder.js:10-32 | the first e-mail goes to the job's facilitator; the weekly reminder, or a throwing manager query, stops there; otherwise one more e-mail per manager with an email, to manager addresses only |
| Reminder.FanoutFacts | services/Reminder.js:66-93 | after the facilitator e-mail, the handler sends the manager fan-out and nothing else |
| Reminder.OverdueLetterCites | services/Reminder.js:67 | the overdue reminder text cites the week, the allocation and the deadline |
| Reminder.CheckOverdueLogs | services/Reminder.js:114-149 | the module-level scan has the same filter and enqueue rule as the worker's |
| Reminder.Load | services/Reminder.js:152-155 | loading the module arms the hourly interval and runs one scan |
| Reminder.Fire | services/Reminder.js:152 | each firing of that interval runs one more scan and leaves the interval armed |
| ActivityLogController.Created | controllers/activityLogController.js:30 | the log is created exactly when it has a week and valid statuses; it takes the body's values and defaults to 'Not Started' |
| ActivityLogController.Patched | controllers/activityLogController.js:140 | `update(req.body)` overwrites exactly the supplied keys; an invalid status writes nothing; statuses stay valid |
| ActivityLogController.EmptyPatchKeepsLog | controllers/activityLogController.js:140 | an empty body leaves the log unchanged |
| ActivityLogController.ContactOf | controllers/activityLogController.js:33 | the facilitator's User is found exactly when both rows exist, and carries that User's email and name |
| ActivityLogController.CheckAccess | controllers/activityLogController.js:23-28 | non-facilitators pass; a facilitator without a profile is denied; a facilitator passes only on their own allocation, and exactly then when their profile is unique |
| ActivityLogController.CreateLog | controllers/activityLogController.js:13-48 | 404 exactly for an unknown allocation and 403 for another facilitator's, both before any write; otherwise the log is written, then one `log-submitted` job if the User resolves; a rejected `add` gives 500 with the log kept |
| ActivityLogController.SubmittedNoticeCitesWeek | controllers/activityLogController.js:34-41 | the `log-submitted` payload carries the week, and the message cites it |
| ActivityLogController.FilterMeansAdmits | controllers/activityLogController.js:63-84 | the built `where`/`include` admits a log exactly when it matches every truthy parameter: week, any of six statuses, a named field equal to `gradingStatusValue \|\| 'Pending'`, facilitator and module |
| ActivityLogController.GetAllLogs | controllers/activityLogController.js:51-91 | the reply holds exactly the admitted logs; 500 exactly when `gradingStatus` names no column |
| ActivityLogController.GetLogById | controllers/activityLogController.js:94-118 | 404 exactly for a missing log; non-facilitators always read it; a facilitator without a profile, or reading another facilitator's log, gets 403; 500 exactly for a facilitator with a profile reading a log whose allocation row is missing; a sole-profile facilitator reads exactly their own allocation's logs |
| ActivityLogController.UpdateLog | controllers/activityLogController.js:121-160 | 404 exactly for a missing log, writing nothing; a facilitator without a profile, or not owning the log, gets 403 and nothing is written; a profiled facilitator on a log without allocation gets 500 with nothing written; for everyone else, the owner included, a status outside its ENUM is the catch's 500 with nothing written, and a valid patch is saved, with `grading-updated` enqueued only for a truthy grading field and 500 only when that step throws; statuses stay valid |
| ActivityLogController.GradingNoticeUsesUpdatedLog | controllers/activityLogController.js:145-151 | the `grading-updated` payload carries the week and allocation after the update (the body's where it sends them, the stored ones otherwise), and the message cites that week |
| ActivityLogController.DeleteLog | controllers/activityLogController.js:163-173 | 404 for a missing log; otherwise exactly that log is removed |
| ActivityLogController.GetOverdueLogs | controllers/activityLogController.js:176-197 | exactly the logs whose week is before the current week |
| ActivityLogController.OverdueLogsGrow | controllers/activityLogController.js:178-183 | within a year an overdue log stays overdue, and a log of the current week is never overdue |
| AllocationController.Rejection | controllers/allocationController.js:9-37 | the checks in source order: any falsy field, then the trimester enum, then four digits, then a duplicate key without modeId; none fail exactly for valid new input |
| AllocationController.CreateAllocation | controllers/allocationController.js:4-44 | a rejected body writes nothing; success adds exactly the body's allocation with 201; creation keeps the duplicate key unique |
| AllocationController.Merged | controllers/allocationController.js:82-87 | each column takes the supplied value when truthy and keeps its own otherwise |
| AllocationController.MergedIdempotent | controllers/allocationController.js:82-89 | the same update twice equals once; an update without truthy fields changes nothing |
| AllocationController.UpdateSkipsValidation | controllers/allocationController.js:85-87 | an update stores a trimester and a year that create refuses |
| AllocationController.UpdateAllocation | controllers/allocationController.js:73-94 | 404 writes nothing; otherwise the merged allocation is saved and returned |
| AllocationController.DeleteAllocation | controllers/allocationController.js:97-111 | 404 for a missing allocation; otherwise exactly that row is removed |
| AllocationController.MayViewFacilitator | controllers/allocationController.js:120-126 | managers pass; anyone else passes only for their own facilitator row, and exactly then when their profile is unique |
| AllocationController.GetFacilitatorAllocations | controllers/allocationController.js:114-136 | 403 for a non-manager reading another facilitator; otherwise exactly that facilitator's allocations |
| AllocationController.GetFacilitatorAllocationById | controllers/allocationController.js:139-164 | the 403 check comes first; then the allocation is returned only if it exists and belongs to the facilitator in the path, otherwise 404 |
| AllocationController.FilterWhere | controllers/allocationController.js:170-177 | the where clause has a key exactly for each truthy parameter, with its value |
| AllocationController.FilterAllocations | controllers/allocationController.js:167-187 | exactly the allocations that agree with every truthy parameter |
| AllocationController.EmptyFilterIsAll | controllers/allocationController.js:179-181 | an empty query returns every allocation |
| AuthController.RegisterRejection | controllers/authController.js:8-19 | missing fields first, then an unknown role, then a taken email; none fail exactly for a complete body with a known role and a free email |
| AuthController.NewProfile | controllers/authController.js:26-30 | `{ userId, ...extraData }`: the extra data is kept, and its own `userId` key wins |
| AuthController.Register | controllers/authController.js:4-38 | a rejected request writes nothing; past the checks, exactly one User and one profile of its role; a failing token step leaves both written; e-mails stay unique |
| AuthController.Login | controllers/authController.js:40-59 | an unknown email, and a password that compares with no user of that email, both give 400 'Invalid credentials'; an omitted email, or an omitted password for a known email, gives 500; success needs a user whose password compares, and with unique e-mails such a user always succeeds when the token step does |
| StudentController.CreateEffect | controllers/studentController.js:5-35 | 409 exactly for an email in use; failure writes nothing; success stores exactly the body's name, email, classId and cohortId with the hashed password, and replies without it; e-mails stay unique |
| StudentController.CreateStudent | controllers/studentController.js:5-35 | `createStudent` has exactly the effect `CreateEffect` describes |
| StudentController.UpdateEffect | controllers/studentController.js:120-158 | 404 and 409 write nothing; success changes only that row, rehashes only a supplied password, replies without it; e-mails stay unique |
| StudentController.UpdateMergesFields | controllers/studentController.js:138-140 | name, email, classId and cohortId change only when supplied truthy; an empty body changes nothing |
| StudentController.UpdateStudent | controllers/studentController.js:120-158 | `updateStudent` has exactly the effect `UpdateEffect` describes |
| StudentController.UpdateProfile | controllers/studentController.js:38-76 | the same update, on the authenticated user's id |
| StudentController.DeleteStudent | controllers/studentController.js:161-175 | 404 for a missing student; otherwise exactly that row is removed |
| FacilitatorController.CreateEffect | controllers/facilitatorController.js:5-28 | 400 exactly for a duplicate email; failure writes nothing; success stores exactly the body's name, email, qualification, location and managerId with the hashed password; e-mails stay unique |
| FacilitatorController.CreateFacilitator | controllers/facilitatorController.js:5-28 | `createFacilitator` has exactly the effect `CreateEffect` describes |
| FacilitatorController.ProfileEffect | controllers/facilitatorController.js:31-69 | 404 and a taken email write nothing; success merges name, email, qualification and location, rehashes only a supplied password, and cannot change managerId; e-mails stay unique |
| FacilitatorController.UpdateProfile | controllers/facilitatorController.js:31-69 | `updateProfile` has exactly the effect `ProfileEffect` describes |
| FacilitatorController.UpdateEffect | controllers/facilitatorController.js:103-135 | 404 and a taken email write nothing; success merges the five fields and the password and keeps the user; e-mails stay unique |
| FacilitatorController.UpdateIdempotent | controllers/facilitatorController.js:117-127 | without a password the same update twice equals once; an empty body changes nothing |
| FacilitatorController.UpdateFacilitator | controllers/facilitatorController.js:103-135 | `updateFacilitator` has exactly the effect `UpdateEffect` describes |
| FacilitatorController.DeleteFacilitator | controllers/facilitatorController.js:138-150 | 404 for a missing facilitator; otherwise exactly that row is removed |
| ManagerController.CreateEffect | controllers/managerController.js:5-23 | 400 exactly for a duplicate email; failure writes nothing; success stores the hashed password; e-mails stay unique |
| ManagerController.CreateManager | controllers/managerController.js:5-23 | `createManager` has exactly the effect `CreateEffect` describes |
| ManagerController.GetAllManagers | controllers/managerController.js:26-35 | every manager, each shown with all its columns but the password |
| ManagerController.GetManagerById | controllers/managerController.js:38-53 | 404 exactly for a missing id; otherwise the manager without its password |
| ManagerController.ReadsAgree | controllers/managerController.js:28-43 | both reads show the same manager |
| ManagerController.UpdateEffect | controllers/managerController.js:56-78 | 404 writes nothing; otherwise name and email merge, the password is rehashed only when supplied, and the reply is only a message |
| ManagerController.EmptyUpdateChangesNothing | controllers/managerController.js:66-71 | an update without truthy fields leaves the table as it was |
| ManagerController.UpdateCanDuplicateEmail | controllers/managerController.js:66-73 | the update does not check the new email, so two managers can end up sharing one |
| ManagerController.UpdateManager | controllers/managerController.js:56-78 | `updateManager` has exactly the effect `UpdateEffect` describes |
| ManagerController.DeleteManager | controllers/managerController.js:81-95 | 404 for a missing manager; otherwise exactly that row is removed |
| ClassController.CreateEffect | controllers/classController.js:4-18 | only name, startDate and graduationDate are stored; any of them missing gives 400 and writes nothing |
| ClassController.CreateClass | controllers/classController.js:4-18 | `createClass` has exactly the effect `CreateEffect` describes |
| ClassController.Merged | controllers/classController.js:57-59 | each field is replaced only when supplied truthy |
| ClassController.MergedIdempotent | controllers/classController.js:57-59 | the same update twice equals once; an empty body changes nothing |
| ClassController.UpdateClass | controllers/classController.js:47-66 | 404 writes nothing; otherwise the merged class is saved and returned |
| ClassController.DeleteClass | controllers/classController.js:69-83 | 404 for a missing class; otherwise exactly that row is removed |
| ModuleController.CreateEffect | controllers/moduleController.js:4-13 | created exactly when name and half are given and half is H1, H2 or FT; otherwise 400 and nothing written; valid halves are kept |
| ModuleController.CreateModule | controllers/moduleController.js:4-13 | `createModule` has exactly the effect `CreateEffect` describes |
| ModuleController.UpdateEffect | controllers/moduleController.js:42-60 | 404 writes nothing; a truthy invalid half gives 400 and writes nothing; otherwise name and half merge; valid halves are kept |
| ModuleController.EmptyUpdateChangesNothing | controllers/moduleController.js:52-53 | an empty body leaves a valid module unchanged |
| ModuleController.UpdateModule | controllers/moduleController.js:42-60 | `updateModule` has exactly the effect `UpdateEffect` describes |
| ModuleController.DeleteModule | controllers/moduleController.js:63-77 | 404 for a missing module; otherwise exactly that row is removed; valid halves are kept |
| Authorization.OneRole | middleware/authorization.js:1-20 | `student`, `facilitator` and `manager` call `next` exactly for that role, with the same user; otherwise 403 with their message |
| Authorization.AuthorizeRoles | middleware/authorization.js:22-29 | `next` exactly for a listed role; otherwise 403 naming the role |
| Authorization.FixedGatesAreSingleRoleLists | middleware/authorization.js:1-29 | each fixed gate decides as `authorizeRoles` with that one role |
| Authorization.GatesExclusive | middleware/authorization.js:22-29 | an empty role list denies everyone; no user passes two fixed gates |
| Authentication.SplitJoin | middleware/authentication.js:10 | `split(' ')` loses nothing: joining the pieces gives the header back, and no piece holds a space |
| Authentication.BearerTokenRoundTrip | middleware/authentication.js:10 | the token written after "Bearer " is the token extracted |
| Authentication.ErrorMessage | middleware/authentication.js:32-38 | TokenExpiredError → "Token expired"; JsonWebTokenError → "Invalid token"; anything else → "Not authorized" |
| Authentication.Protect | middleware/authentication.js:4-45 | every failure is a 401; a missing or non-"Bearer" header is refused first with its message; a thrown verification error gets the message `ErrorMessage` maps its name to; a payload without id gets "Invalid token payload"; an id naming no user gets "User not found"; `next` exactly when the token decodes to an id naming a user, and `req.user` is that user |
| Authentication.ValidBearerPasses | middleware/authentication.js:7-29 | a well-formed header whose token names a known user passes, as that user |
| Authentication.GluedBearerIsInvalid | middleware/authentication.js:7-13 | "Bearer" glued to the token passes the prefix test but fails as an invalid token |
| Routes.Find | routes/activityLogRoutes.js:174-207 | dispatch picks the first route in declaration order whose verb and pattern match |
| Routes.SelfRule | routes/studentRoutes.js:15-25 | `next` exactly for a manager or for the student whose id is in the path; otherwise 403 "Access denied" |
| Routes.Gates | routes/activityLogRoutes.js:88 | a chain's gates pass exactly when each passes; a refusal is a 403 |
| Routes.Serve | routes/managerRoutes.js:43-173 | no action runs when `protect` refuses; past it, the found route's gates decide; every refusal is 401 or 403 |
| Routes.StudentRoutesGuarded | routes/studentRoutes.js:9-41 | every student route runs `protect` first |
| Routes.LogRoutesGuarded | routes/activityLogRoutes.js:88-317 | every log route runs `protect` first |
| Routes.ManagerRoutesGuarded | routes/managerRoutes.js:43-173 | every manager route runs `protect` first |
| Routes.ServeAt | routes/studentRoutes.js:9-41 | an authenticated request on its first matching route ends as that route's gates decide |
| Routes.StudentManagerRoutes | routes/studentRoutes.js:9-12 | student create, list and delete reach the action exactly for a manager |
| Routes.StudentByIdRule | routes/studentRoutes.js:15-38 | student GET and PUT "/:id" reach the action exactly for a manager or that student; others get 403 "Access denied" |
| Routes.FacilitatorNeverOnStudentById | routes/studentRoutes.js:15-38 | a facilitator never reads or updates a student through these routes |
| Routes.LogCreateRole | routes/activityLogRoutes.js:88 | only facilitators create logs |
| Routes.LogManagerRoutes | routes/activityLogRoutes.js:149-174 | only managers list all logs, list overdue logs or delete a log |
| Routes.LogOpenRoutes | routes/activityLogRoutes.js:207-280 | GET and PUT "/:id" have no role gate: every authenticated user reaches the action |
| Routes.ManagerCreateRole | routes/managerRoutes.js:43 | creating a manager needs the manager role |
| Routes.ManagerOpenRoutes | routes/managerRoutes.js:66-173 | list, get, update and delete have no role gate: any authenticated user reaches them |

## Left out

- Bull and Redis internals (queues/Queue.js, the Redis client): the queue is an append-only job sequence with an `available` flag. Leases, persistence, retries and job ordering across workers are not modelled.
- Jobs.GetQueueStats: models the four listing calls as one listing of job states. It does not model the four separate, non-atomic calls.
- `clearCompletedJobs` of services/NotificationWorker.js is left out. It only calls the queue library's `clean`.
- E-mail transport (utils/emailService.js): `sendEmail` is the list of e-mails a handler sends. It swallows transport errors and does nothing when unconfigured, so no handler sees a failure.
- Timers, clocks and time zones: "now" is a `Calendar.Clock` passed in. Timer firings are explicit events: `NotificationWorker.Worker.Fire` for the worker's timers, `Reminder.Fire` for the module-level interval. DST and concurrency between scans, handlers and requests are not modelled.
- OverdueScan.OverdueJobFor: the payload carries the deadline as epoch milliseconds. `toDateString` formatting happens where the handler renders it, as the `dateString` parameter of `Reminder.JobSends`.
- Cryptography and JWT: `bcrypt.hash`/`compare` and `jwt.verify` are parameters, and the token step is an `Option` parameter. As written, `generateToken` is not imported in controllers/authController.js, so in the repository the token step always throws; the model allows both outcomes.
- AuthController.Register: the profile row takes `extraData` as given. The NOT NULL checks on the profile's columns (a student's name, classId and cohortId, for example) are not modelled, so such a failure is not among the 500 outcomes. The User row has no name column written; the model stores "".
- ORM wiring: models/index.js does not export `ActivityLog`, so the log controller's table is undefined at run time. The model treats it as wired.
- Schema mismatch: the student, facilitator and manager controllers read and write `email` and `password` columns that their models do not declare. The model follows the controllers.
- FacilitatorController.CreateEffect: the created row's `userId` is "". The controller never sets it, although models/facilitator.js declares it NOT NULL, so as written every create fails that check and ends in the catch's 500. The model stores the row the controller builds instead.
- ManagerController.CreateEffect: the same, for models/manager.js.
- Store.FindOne: which row `findOne` returns when several match is up to the store. Contracts that depend on the match say so through `SoleProfile`, and otherwise state only what holds for every choice.
- Column types: week strings and stored ints are compared through their decimal rendering. MySQL type coercion and collation (case-insensitive e-mail matches, for example) are not modelled.
- ActivityLogController.GetAllLogs: a `gradingStatus` naming a column outside the model's log columns is a 500, because the store rejects an unknown column. `attendance` (models/activityLog.js:18-21) and the timestamps `createdAt`/`updatedAt` (`timestamps: true`) are declared columns, so for these three the source runs the query and filters on them, but the model answers 500.
- StudentController.CreateEffect: the `Student` row has no `userId`. models/student.js declares it NOT NULL and `createStudent` never sets it, so as written every create ends in the catch's 400. The model stores the row the controller builds instead.
- Store failures: `save` and `destroy` cannot fail in the model. So the catch branches of the update and delete handlers (for example controllers/classController.js:63-65 and 80-82, controllers/allocationController.js:91-93, controllers/studentController.js:155-157, controllers/managerController.js:75-77) are not reachable. Only the validation and uniqueness failures are modelled.
- Request bodies: a key with an explicit `null` is treated like an omitted key.
- ClassController.CreateEffect: the `DATEONLY` format check on startDate and graduationDate is not modelled; any string is stored.
- Plain reads: `getAllStudents`, `getStudentById`, `getAllFacilitators`, `getFacilitatorById`, `getAllClasses`, `getAllModules`, `getAllAllocations` and `getAllocationById` are a `findAll`/`findByPk`, with joins that only add columns. They are covered by `Store.FindAll` and the by-id functions; the joined columns are not modelled.
- Unwired routes: the `module.exports = router` lines of routes/allocationRoutes.js, classRoutes.js, facilitatorRoutes.js and moduleRoutes.js are commented out, so each `require` yields an empty object. routes/indexRoutes.js:15 then passes that object to `router.use('/api/modules', ...)`, which Express 4 rejects by throwing when the module loads. As written, app.js cannot start and no route is served. The model treats the student, activity-log and manager routers as mounted (`Routes.Serve`), and models the four unwired routers' controllers directly.
- `restrictTo` in middleware/authentication.js is attached after `module.exports` is replaced, so it is never exported. It is left out.
- Routes.Serve: the role gates run only after `protect`, which sets `req.user`. Chains that do not start with `protect` are excluded by the `AllGuarded` precondition; all three tables meet it.
- Documentation and UI: swagger.js, the JSDoc blocks of the route files, and frontend/ are left out.
- The current week at exactly 7 × k days after 1 January: this is still week k, because the ceiling of an exact quotient is the quotient. The model follows the code.
- ActivityLogController.CreateLog: when the queue rejects `add`, the reply is the catch's 500 but the log is already written. The model follows the code: 500 with the row persisted.
