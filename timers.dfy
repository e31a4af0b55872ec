/** The JavaScript event loop's timers as explicit state: `setInterval` and
    `setTimeout` arm a timer under a fresh handle, `clearInterval` disarms it,
    and a timer's firing is an explicit event (see the worker's `Fire`). */
module Timers {

  /** The callbacks the services arm. */
  datatype Timer =
    | WorkerScan                    // the worker's hourly `checkOverdueLogs`
    | WorkerWeeklyTimeout(delay: int) // the one-shot timeout aimed at next Monday 09:00
    | WorkerWeeklyRepeat            // the 7-day interval armed when that timeout fires
    | ReminderScan                  // the hourly interval services/Reminder.js arms at load

  class EventLoop {
    var timers: map<nat, Timer>
    var nextHandle: nat

    ghost predicate Valid()
      reads this
    {
      forall h :: h in timers ==> h < nextHandle
    }

    constructor ()
      ensures Valid() && timers == map[] && nextHandle == 0
    {
      timers := map[];
      nextHandle := 0;
    }

    /** `setInterval` / `setTimeout`: arm `t` under a new handle. */
    method Arm(t: Timer) returns (h: nat)
      requires Valid()
      modifies this
      ensures Valid()
      ensures h == old(nextHandle) && h !in old(timers)
      ensures timers == old(timers)[h := t] && nextHandle == old(nextHandle) + 1
    {
      h := nextHandle;
      timers := timers[h := t];
      nextHandle := nextHandle + 1;
    }

    /** `clearInterval(h)`, and the disarming of a one-shot timeout after it fires. */
    method Disarm(h: nat)
      requires Valid()
      modifies this
      ensures Valid()
      ensures timers == old(timers) - {h} && nextHandle == old(nextHandle)
    {
      timers := timers - {h};
    }
  }

  /** Handles of the armed weekly schedules (the timeout and the 7-day intervals). */
  function WeeklyHandles(timers: map<nat, Timer>): set<nat> {
    set h | h in timers && (timers[h].WorkerWeeklyTimeout? || timers[h].WorkerWeeklyRepeat?)
  }
}
