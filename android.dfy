/** The Android facilities the app talks to, reduced to the tables they keep:
    the alarm service (request code -> armed alarm), the notification service
    (notification id -> posted notification) and the default shared preferences. */
module Android {
  import opened JavaLang

  /** Build.VERSION_CODES.S, the first API level with the exact-alarm privilege. */
  const VERSION_S: int := 31

  /** Activity result codes (Activity.RESULT_OK and RESULT_CANCELED). */
  const RESULT_OK: int := -1
  const RESULT_CANCELED: int := 0

  /** The extras of a reminder intent aimed at ReminderBroadcastReceiver: keys
      "task_title", "task_id", "alarm_id" and "task_description". An absent int extra
      is None; an absent or null string extra is None. */
  datatype ReminderExtras = ReminderExtras(
    title: JString,
    taskId: Option<int>,
    alarmId: Option<int>,
    description: JString)

  /** setExactAndAllowWhileIdle or setAndAllowWhileIdle, both RTC_WAKEUP. */
  datatype AlarmKind = ExactAllowWhileIdle | AllowWhileIdle

  datatype Alarm = Alarm(triggerAtMillis: int, kind: AlarmKind, extras: ReminderExtras)

  /** The alarm service. A broadcast PendingIntent to the reminder receiver is identified
      by its request code alone (extras do not take part in PendingIntent equality), so the
      live alarms form a table keyed by request code; arming a key again replaces it. */
  class AlarmManager {
    var alarms: map<int, Alarm>
    /** AlarmManager.canScheduleExactAlarms() on API level S and above. */
    var exactAlarmsGranted: bool

    constructor(granted: bool)
      ensures alarms == map[] && exactAlarmsGranted == granted
    {
      alarms := map[];
      exactAlarmsGranted := granted;
    }

    method SetExactAndAllowWhileIdle(requestCode: int, triggerAtMillis: int, extras: ReminderExtras)
      modifies this`alarms
      ensures alarms == old(alarms)[requestCode := Alarm(triggerAtMillis, ExactAllowWhileIdle, extras)]
    {
      alarms := alarms[requestCode := Alarm(triggerAtMillis, ExactAllowWhileIdle, extras)];
    }

    method SetAndAllowWhileIdle(requestCode: int, triggerAtMillis: int, extras: ReminderExtras)
      modifies this`alarms
      ensures alarms == old(alarms)[requestCode := Alarm(triggerAtMillis, AllowWhileIdle, extras)]
    {
      alarms := alarms[requestCode := Alarm(triggerAtMillis, AllowWhileIdle, extras)];
    }

    method Cancel(requestCode: int)
      modifies this`alarms
      ensures alarms == old(alarms) - {requestCode}
    {
      alarms := alarms - {requestCode};
    }
  }

  /** What the app puts on a notification and this model keeps of it. */
  datatype Notification = Notification(contentTitle: string, contentText: string, highPriority: bool)

  /** The notification service (NotificationManager / NotificationManagerCompat). */
  class NotificationManager {
    var posted: map<int, Notification>
    /** Whether the POST_NOTIFICATIONS permission is granted to the app. */
    var postGranted: bool

    constructor(granted: bool)
      ensures posted == map[] && postGranted == granted
    {
      posted := map[];
      postGranted := granted;
    }

    method Notify(id: int, n: Notification)
      modifies this`posted
      ensures posted == old(posted)[id := n]
    {
      posted := posted[id := n];
    }

    method Cancel(id: int)
      modifies this`posted
      ensures posted == old(posted) - {id}
    {
      posted := posted - {id};
    }
  }

  /** The default SharedPreferences. Every key the app uses holds one type only, so the
      store is two typed maps. */
  class SharedPreferences {
    var booleans: map<string, bool>
    var strings: map<string, string>

    constructor()
      ensures booleans == map[] && strings == map[]
    {
      booleans := map[];
      strings := map[];
    }

    function GetBoolean(key: string, default: bool): (b: bool)
      reads this
      ensures key in booleans ==> b == booleans[key]
      ensures key !in booleans ==> b == default
    {
      if key in booleans then booleans[key] else default
    }

    function GetString(key: string, default: string): (s: string)
      reads this
      ensures key in strings ==> s == strings[key]
      ensures key !in strings ==> s == default
    {
      if key in strings then strings[key] else default
    }

    method PutString(key: string, value: string)
      modifies this`strings
      ensures strings == old(strings)[key := value]
    {
      strings := strings[key := value];
    }

    method PutBoolean(key: string, value: bool)
      modifies this`booleans
      ensures booleans == old(booleans)[key := value]
    {
      booleans := booleans[key := value];
    }
  }
}
