/** SnoozeReceiver: removes the shown notification, reads the snooze duration preference
    and re-arms the reminder at now + duration. */
module SnoozeReceiver {
  import opened JavaLang
  import opened TaskModel
  import opened Android
  import AlarmScheduler

  /** The default of the "snooze_duration" preference: five minutes in milliseconds. */
  const DEFAULT_DURATION: string := "300000"
  const FAILED_TOAST: string := "Failed to snooze: Permission denied"

  datatype Outcome =
    | InvalidTaskId        // task_id absent or 0: nothing happens
    | Crashed              // Long.parseLong threw outside the try block
    | Rejected             // the alarm service threw a SecurityException
    | Snoozed(minutes: int)

  /** The toast shown for an outcome. */
  function Toast(o: Outcome): (t: Option<string>)
    ensures o.Snoozed? ==> t == Some("Snoozed for " + LongToString(o.minutes) + " minutes")
    ensures o.Rejected? ==> t == Some(FAILED_TOAST)
    ensures o.InvalidTaskId? || o.Crashed? ==> t.None?
  {
    match o
    case Snoozed(m) => Some("Snoozed for " + LongToString(m) + " minutes")
    case Rejected => Some(FAILED_TOAST)
    case _ => None
  }

  /** The request code of the new alarm: alarm_id when non-zero, else the task id. */
  function RequestCode(e: ReminderExtras, taskId: int): (k: int)
    ensures e.alarmId.GetOr(0) != 0 ==> k == e.alarmId.value
    ensures e.alarmId.GetOr(0) == 0 ==> k == taskId
  {
    var alarmId := e.alarmId.GetOr(0);
    if alarmId != 0 then alarmId else taskId
  }

  /** The payload of the new alarm: title, task id and description as received, and
      alarm_id as received with 0 for an absent one. */
  function Forwarded(e: ReminderExtras, taskId: int): (f: ReminderExtras)
    ensures f.title == e.title && f.description == e.description
    ensures f.taskId == Some(taskId)
    ensures f.alarmId == Some(e.alarmId.GetOr(0))
  {
    ReminderExtras(e.title, Some(taskId), Some(e.alarmId.GetOr(0)), e.description)
  }

  /** Inexact only on API level S and above without the exact-alarm privilege. */
  function SnoozeKind(sdkInt: int, granted: bool): (k: AlarmKind)
    ensures k == AllowWhileIdle <==> sdkInt >= VERSION_S && !granted
  {
    if sdkInt >= VERSION_S && !granted then AllowWhileIdle else ExactAllowWhileIdle
  }

  datatype Snooze = Snooze(posted: map<int, Notification>, alarms: map<int, Alarm>, outcome: Outcome)

  /** The two tables and the outcome after onReceive. durationPref is the stored
      "snooze_duration" string (DEFAULT_DURATION when unset); osRejects says whether the
      alarm service throws a SecurityException. */
  function Snoozing(posted: map<int, Notification>, alarms: map<int, Alarm>, e: ReminderExtras,
                    durationPref: string, sdkInt: int, granted: bool, now: int, osRejects: bool): (r: Snooze)
    ensures e.taskId.GetOr(0) == 0 ==> r == Snooze(posted, alarms, InvalidTaskId)
    ensures e.taskId.GetOr(0) != 0 ==> r.posted == posted - {e.taskId.value}
    ensures e.taskId.GetOr(0) != 0 && ParseLong(durationPref).None? ==> r.alarms == alarms && r.outcome == Crashed
    ensures e.taskId.GetOr(0) != 0 && ParseLong(durationPref).Some? && osRejects ==>
      r.alarms == alarms && r.outcome == Rejected
    ensures e.taskId.GetOr(0) != 0 && ParseLong(durationPref).Some? && !osRejects ==>
      var d := ParseLong(durationPref).value;
      var key := RequestCode(e, e.taskId.value);
      key in r.alarms && r.alarms[key] == Alarm(WrapLong(now + d), SnoozeKind(sdkInt, granted), Forwarded(e, e.taskId.value))
      && (forall k :: k != key ==> (k in r.alarms <==> k in alarms))
      && (forall k :: k != key && k in alarms ==> r.alarms[k] == alarms[k])
      && r.outcome == Snoozed(JavaDiv(d, 60000))
  {
    var taskId := e.taskId.GetOr(0);
    if taskId == 0 then Snooze(posted, alarms, InvalidTaskId)
    else
      var cleared := posted - {taskId};
      match ParseLong(durationPref)
      case None => Snooze(cleared, alarms, Crashed)
      case Some(d) =>
        if osRejects then Snooze(cleared, alarms, Rejected)
        else
          var alarm := Alarm(WrapLong(now + d), SnoozeKind(sdkInt, granted), Forwarded(e, taskId));
          Snooze(cleared, alarms[RequestCode(e, taskId) := alarm], Snoozed(JavaDiv(d, 60000)))
  }

  /** With the preference unset the reminder comes back five minutes later and the toast
      says so. */
  lemma DefaultSnoozeIsFiveMinutes(posted: map<int, Notification>, alarms: map<int, Alarm>, e: ReminderExtras,
                                   sdkInt: int, granted: bool, now: int)
    requires e.taskId.GetOr(0) != 0 && IsLong(now + 300000)
    ensures var r := Snoozing(posted, alarms, e, DEFAULT_DURATION, sdkInt, granted, now, false);
      RequestCode(e, e.taskId.value) in r.alarms
      && r.alarms[RequestCode(e, e.taskId.value)].triggerAtMillis == now + 300000
      && Toast(r.outcome) == Some("Snoozed for 5 minutes")
  {
    var s := DEFAULT_DURATION;
    assert AllDigits(s);
    assert s[..5] == "30000" && s[..4] == "3000" && s[..3] == "300" && s[..2] == "30" && s[..1] == "3";
    assert s[..2][..1] == s[..1] && s[..3][..2] == s[..2] && s[..4][..3] == s[..3];
    assert s[..5][..4] == s[..4] && s[..5] == s[..|s| - 1];
    assert DigitsValue(s[..1]) == 3;
    assert DigitsValue(s[..2]) == 30;
    assert DigitsValue(s[..3]) == 300;
    assert DigitsValue(s[..4]) == 3000;
    assert DigitsValue(s[..5]) == 30000;
    assert ParseLong(s) == Some(300000);
    assert JavaDiv(300000, 60000) == 5;
    assert LongToString(5) == NatToDigits(5) == "5";
    var r := Snoozing(posted, alarms, e, DEFAULT_DURATION, sdkInt, granted, now, false);
    assert r.outcome == Snoozed(5);
    assert "Snoozed for " + "5" + " minutes" == "Snoozed for 5 minutes";
  }

  /** Snoozing the reminder the scheduler armed: the payload has no alarm_id, so the new
      alarm goes under the task id, not the task's alarmId, and cancelling the task's alarm
      afterwards (as editing or deleting it does) leaves the snoozed alarm armed whenever
      the two keys differ. */
  lemma SnoozedReminderEscapesCancel(posted: map<int, Notification>, alarms: map<int, Alarm>, task: Task,
                                     durationPref: string, sdkInt: int, granted: bool, now: int)
    requires task.id != 0 && ParseLong(durationPref).Some?
    ensures var r := Snoozing(posted, alarms, AlarmScheduler.ReminderAlarm(task).extras,
                              durationPref, sdkInt, granted, now, false);
      task.id in r.alarms && r.alarms[task.id].extras.alarmId == Some(0)
      && r.alarms[task.id].extras.description.None?
      && (task.id != task.alarmId ==> task.id in AlarmScheduler.Cancelled(r.alarms, task.alarmId))
  {
    var e := AlarmScheduler.ReminderAlarm(task).extras;
    assert RequestCode(e, task.id) == task.id;
  }

  /** onReceive. The notification and alarm services are taken to be present. */
  method OnReceive(nm: NotificationManager, am: AlarmManager, prefs: SharedPreferences, sdkInt: int,
                   e: ReminderExtras, now: int, osRejects: bool) returns (outcome: Outcome)
    modifies nm`posted, am`alarms
    ensures Snooze(nm.posted, am.alarms, outcome)
      == Snoozing(old(nm.posted), old(am.alarms), e, prefs.GetString("snooze_duration", DEFAULT_DURATION),
                  sdkInt, am.exactAlarmsGranted, now, osRejects)
  {
    var taskId := e.taskId.GetOr(0);
    if taskId == 0 {
      return InvalidTaskId;
    }
    nm.Cancel(taskId);
    var parsed := ParseLong(prefs.GetString("snooze_duration", DEFAULT_DURATION));
    if parsed.None? {
      return Crashed;
    }
    var duration := parsed.value;
    var triggerTime := WrapLong(now + duration);
    var forwarded := ReminderExtras(e.title, Some(taskId), Some(e.alarmId.GetOr(0)), e.description);
    var alarmId := e.alarmId.GetOr(0);
    var requestCode := if alarmId != 0 then alarmId else taskId;
    if osRejects {
      return Rejected;
    }
    if sdkInt >= VERSION_S && !am.exactAlarmsGranted {
      am.SetAndAllowWhileIdle(requestCode, triggerTime, forwarded);
    } else {
      am.SetExactAndAllowWhileIdle(requestCode, triggerTime, forwarded);
    }
    outcome := Snoozed(JavaDiv(duration, 60000));
  }
}
