/** AlarmScheduler: arms a task's reminder in the alarm table under the task's alarmId, or
    cancels it. The clock reading is the parameter `now`. */
module AlarmScheduler {
  import opened JavaLang
  import opened TaskModel
  import opened Android

  /** areNotificationsEnabled: the "notifications" preference, on when it was never set. */
  function NotificationsEnabled(booleans: map<string, bool>): (b: bool)
    ensures "notifications" !in booleans ==> b
    ensures "notifications" in booleans ==> b == booleans["notifications"]
  {
    if "notifications" in booleans then booleans["notifications"] else true
  }

  /** canScheduleExactAlarms: below API level S no privilege is needed. */
  function CanScheduleExactAlarms(sdkInt: int, granted: bool): (b: bool)
    ensures sdkInt < VERSION_S ==> b
    ensures sdkInt >= VERSION_S ==> b == granted
  {
    sdkInt < VERSION_S || granted
  }

  /** The reminder lies strictly in the future and has an alarm key. */
  predicate Due(task: Task, now: int) {
    task.reminderTime > now && HasAlarmKey(task)
  }

  /** The alarm `schedule` arms: exact, at the reminder time, carrying the title and the
      task id and neither a description nor an alarm_id. */
  function ReminderAlarm(task: Task): (a: Alarm)
    ensures a.triggerAtMillis == task.reminderTime && a.kind == ExactAllowWhileIdle
    ensures a.extras.title == task.title && a.extras.taskId == Some(task.id)
    ensures a.extras.alarmId.None? && a.extras.description.None?
  {
    Alarm(task.reminderTime, ExactAllowWhileIdle, ReminderExtras(task.title, Some(task.id), None, None))
  }

  /** The alarm table after `schedule(task)`. */
  function Scheduled(alarms: map<int, Alarm>, task: Task, enabled: bool, exact: bool, now: int): (r: map<int, Alarm>)
    ensures enabled && Due(task, now) && exact ==> task.alarmId in r && r[task.alarmId] == ReminderAlarm(task)
    ensures r != alarms ==> enabled && Due(task, now) && exact
    ensures forall k :: k != task.alarmId ==> (k in r <==> k in alarms)
    ensures forall k :: k != task.alarmId && k in r ==> r[k] == alarms[k]
    ensures task.alarmId in alarms ==> task.alarmId in r
  {
    if enabled && Due(task, now) && exact then alarms[task.alarmId := ReminderAlarm(task)] else alarms
  }

  /** The alarm table after `cancel(task)` for a task with key alarmId. */
  function Cancelled(alarms: map<int, Alarm>, alarmId: int): (r: map<int, Alarm>)
    ensures alarmId == 0 ==> r == alarms
    ensures alarmId != 0 ==> alarmId !in r
    ensures forall k :: k != alarmId ==> (k in r <==> k in alarms)
    ensures forall k :: k != alarmId && k in r ==> r[k] == alarms[k]
  {
    if alarmId != 0 then alarms - {alarmId} else alarms
  }

  /** Arming the same task again replaces its entry: the table does not grow. */
  lemma ScheduleTwiceIsScheduleOnce(alarms: map<int, Alarm>, task: Task, enabled: bool, exact: bool, now: int)
    ensures var once := Scheduled(alarms, task, enabled, exact, now);
      Scheduled(once, task, enabled, exact, now) == once
      && |once.Keys| <= |alarms.Keys| + 1
  {
    var once := Scheduled(alarms, task, enabled, exact, now);
    if once != alarms {
      assert once.Keys == alarms.Keys + {task.alarmId};
    }
  }

  /** Cancelling after scheduling leaves the table as cancelling alone would. */
  lemma CancelUndoesSchedule(alarms: map<int, Alarm>, task: Task, enabled: bool, exact: bool, now: int)
    requires HasAlarmKey(task)
    ensures Cancelled(Scheduled(alarms, task, enabled, exact, now), task.alarmId) == Cancelled(alarms, task.alarmId)
  {
    var r := Cancelled(Scheduled(alarms, task, enabled, exact, now), task.alarmId);
    assert r.Keys == Cancelled(alarms, task.alarmId).Keys;
  }

  /** A task with the default field values is never armed, whatever the clock says. */
  lemma NewTaskIsNeverArmed(alarms: map<int, Alarm>, enabled: bool, exact: bool, now: int)
    ensures Scheduled(alarms, NewTask(), enabled, exact, now) == alarms
  {
    assert !HasAlarmKey(NewTask());
  }

  class AlarmScheduler {
    const alarmManager: AlarmManager
    const prefs: SharedPreferences
    /** Build.VERSION.SDK_INT. */
    const sdkInt: int
    /** How many times the user has been sent to the exact-alarm settings screen (with the
        "Please grant permission" toast). */
    var settingsPrompts: nat

    constructor(alarmManager: AlarmManager, prefs: SharedPreferences, sdkInt: int)
      ensures this.alarmManager == alarmManager && this.prefs == prefs && this.sdkInt == sdkInt
      ensures settingsPrompts == 0
    {
      this.alarmManager := alarmManager;
      this.prefs := prefs;
      this.sdkInt := sdkInt;
      settingsPrompts := 0;
    }

    function CanExact(): bool
      reads this, alarmManager
    {
      CanScheduleExactAlarms(sdkInt, alarmManager.exactAlarmsGranted)
    }

    /** schedule(task) at clock reading now. */
    method Schedule(task: Task, now: int)
      modifies alarmManager`alarms, this`settingsPrompts
      ensures alarmManager.alarms
        == Scheduled(old(alarmManager.alarms), task, NotificationsEnabled(prefs.booleans), CanExact(), now)
      ensures settingsPrompts == old(settingsPrompts)
        + (if NotificationsEnabled(prefs.booleans) && Due(task, now) && !CanExact() then 1 else 0)
    {
      if !prefs.GetBoolean("notifications", true) {
        return;
      }
      if task.reminderTime > now && task.alarmId != 0 {
        if CanScheduleExactAlarms(sdkInt, alarmManager.exactAlarmsGranted) {
          alarmManager.SetExactAndAllowWhileIdle(task.alarmId, task.reminderTime,
            ReminderExtras(task.title, Some(task.id), None, None));
        } else {
          settingsPrompts := settingsPrompts + 1;
        }
      }
    }

    /** cancel(task). */
    method Cancel(task: Task)
      modifies alarmManager`alarms
      ensures alarmManager.alarms == Cancelled(old(alarmManager.alarms), task.alarmId)
    {
      if task.alarmId != 0 {
        alarmManager.Cancel(task.alarmId);
      }
    }
  }
}
