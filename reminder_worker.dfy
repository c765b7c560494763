/** ReminderWorker: a background job that posts a reminder notification, with no
    permission check, and always reports success. The clock reading is `now`. */
module ReminderWorker {
  import opened JavaLang
  import opened Android

  const FALLBACK_TEXT: string := "You have a reminder."

  /** The notification id: the task id when it is non-zero, else `(int) now`. */
  function NotificationKey(taskId: int, now: int): (k: int)
    ensures taskId != 0 ==> k == taskId
    ensures taskId == 0 ==> IsInt(k) && (now - k) % TWO_32 == 0
  {
    if taskId != 0 then taskId else ToInt(now)
  }

  /** A missing task id and a clock whose low 32 bits are zero post under key 0. */
  lemma KeyCanBeZero()
    ensures NotificationKey(0, TWO_32) == 0
  {
  }

  function WorkerNotification(title: JString): (n: Notification)
    ensures title.Some? ==> n.contentText == title.value
    ensures title.None? ==> n.contentText == FALLBACK_TEXT
    ensures !n.highPriority
  {
    Notification("NextDO Reminder", title.GetOr(FALLBACK_TEXT), false)
  }

  /** doWork with input data task_title and task_id (0 when absent). */
  method DoWork(nm: NotificationManager, title: JString, taskId: Option<int>, now: int) returns (success: bool)
    modifies nm`posted
    ensures success
    ensures nm.posted == old(nm.posted)[NotificationKey(taskId.GetOr(0), now) := WorkerNotification(title)]
  {
    var id := taskId.GetOr(0);
    var key := if id != 0 then id else ToInt(now);
    nm.Notify(key, Notification("NextDO Reminder", if title.Some? then title.value else FALLBACK_TEXT, false));
    success := true;
  }
}
