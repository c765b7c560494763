/** ReminderBroadcastReceiver: turns the extras of a fired alarm into a notification posted
    under the task id. It reads the extras only, never the task store. */
module ReminderBroadcastReceiver {
  import opened JavaLang
  import opened TaskModel
  import opened Android
  import AlarmScheduler

  const CONTENT_TITLE: string := "NextDO Reminder"
  const FALLBACK_TEXT: string := "You have a reminder"

  /** The notification text: the title (or the fallback when it is null), replaced by
      `title + ": " + description` when the description is non-empty. String concatenation
      prints a null title as "null". */
  function ContentText(title: JString, description: JString): (s: string)
    ensures (description.None? || description.value == []) && title.Some? ==> s == title.value
    ensures (description.None? || description.value == []) && title.None? ==> s == FALLBACK_TEXT
    ensures description.Some? && description.value != [] ==>
      s == Show(title) + ": " + description.value && s[|s| - |description.value|..] == description.value
  {
    var text := if title.Some? then title.value else FALLBACK_TEXT;
    if description.Some? && description.value != [] then Show(title) + ": " + description.value else text
  }

  /** A null title with a description yields text starting with "null: ", not the fallback. */
  lemma NullTitleWithDescription(d: string)
    requires d != []
    ensures ContentText(None, Some(d))[..6] == "null: "
    ensures ContentText(None, Some(d)) != FALLBACK_TEXT
  {
    var s := ContentText(None, Some(d));
    assert s == "null" + ": " + d;
    assert |s| > |FALLBACK_TEXT| || s[0] != FALLBACK_TEXT[0];
  }

  /** The notification posted for extras e. */
  function ReminderNotification(e: ReminderExtras): (n: Notification)
    ensures n.contentTitle == CONTENT_TITLE && n.highPriority
    ensures n.contentText == ContentText(e.title, e.description)
  {
    Notification(CONTENT_TITLE, ContentText(e.title, e.description), true)
  }

  /** The notification table after onReceive: with POST_NOTIFICATIONS granted, the
      notification replaces whatever was posted under taskId (0 when the extra is absent);
      without it, nothing changes. */
  function Delivered(posted: map<int, Notification>, e: ReminderExtras, granted: bool): (r: map<int, Notification>)
    ensures !granted ==> r == posted
    ensures granted ==> e.taskId.GetOr(0) in r && r[e.taskId.GetOr(0)] == ReminderNotification(e)
    ensures granted ==> r.Keys == posted.Keys + {e.taskId.GetOr(0)}
    ensures forall k :: k in posted && k != e.taskId.GetOr(0) ==> k in r && r[k] == posted[k]
  {
    if granted then posted[e.taskId.GetOr(0) := ReminderNotification(e)] else posted
  }

  /** An alarm armed by the scheduler delivers the task's title (or the fallback) under the
      task's id: its payload carries no description, so a description never shows. */
  lemma DeliveringArmedReminder(posted: map<int, Notification>, task: Task)
    ensures var r := Delivered(posted, AlarmScheduler.ReminderAlarm(task).extras, true);
      task.id in r && r[task.id].contentText == task.title.GetOr(FALLBACK_TEXT)
  {
    var e := AlarmScheduler.ReminderAlarm(task).extras;
    assert e.taskId.GetOr(0) == task.id;
  }

  /** onReceive: no permission, no post. */
  method OnReceive(nm: NotificationManager, e: ReminderExtras)
    modifies nm`posted
    ensures nm.posted == Delivered(old(nm.posted), e, nm.postGranted)
  {
    var taskId := e.taskId.GetOr(0);
    var contentText := if e.title.Some? then e.title.value else FALLBACK_TEXT;
    if e.description.Some? && e.description.value != [] {
      contentText := Show(e.title) + ": " + e.description.value;
    }
    if nm.postGranted {
      nm.Notify(taskId, Notification(CONTENT_TITLE, contentText, true));
    }
  }
}
