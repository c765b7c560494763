/** MainActivity: the task list screen. It turns the editor's reply into a store write and
    arms or cancels the task's alarm only in the write's completion callback; it completes
    tasks and opens the editor on a task. Clock readings are parameters: `now` when the
    reply arrives and `callbackNow` when the callback runs. */
module MainActivity {
  import opened JavaLang
  import opened TaskModel
  import opened Android
  import opened TaskQuery
  import opened TaskDao
  import TaskRepository
  import AlarmScheduler
  import opened NewTaskActivity

  /** The task built from a RESULT_OK reply: an existing task (id != 0) keeps the alarm key
      handed back; a new one gets `(int) now`, whatever the editor handed back. Every other
      field but the soft-delete columns comes from the reply. */
  function ResultTask(data: EditorExtras, now: int): (t: Task)
    ensures data.id.GetOr(0) != 0 ==> t.id == data.id.value && t.alarmId == data.alarmId.GetOr(0)
    ensures data.id.GetOr(0) == 0 ==> NeedsGeneratedId(t) && IsInt(t.alarmId) && (now - t.alarmId) % TWO_32 == 0
    ensures t.title == data.title && t.description == data.description && t.priority == data.priority
    ensures t.repeat == data.repeat && t.reminderTime == data.reminderTime.GetOr(0)
    ensures !t.isCompleted && !t.isDeleted
  {
    var id := data.id.GetOr(0);
    var base := if id != 0 then NewTask().(id := id, alarmId := data.alarmId.GetOr(0))
                else NewTask().(alarmId := ToInt(now));
    base.(title := data.title, description := data.description, priority := data.priority,
          reminderTime := data.reminderTime.GetOr(0), repeat := data.repeat)
  }

  /** The callback's test: a reminder and an alarm key. */
  predicate ArmAfterWrite(t: Task) {
    HasReminder(t) && HasAlarmKey(t)
  }

  /** onTaskClicked: the editor intent carries every field the editor shows. */
  function EditIntent(t: Task): (e: EditorExtras)
    ensures e.id == Some(t.id) && e.alarmId == Some(t.alarmId) && e.reminderTime == Some(t.reminderTime)
    ensures e.title == t.title && e.description == t.description
    ensures e.priority == t.priority && e.repeat == t.repeat
  {
    EditorExtras(Some(t.id), Some(t.alarmId), t.title, t.description, t.priority, Some(t.reminderTime), t.repeat)
  }

  /** Editing a stored task and saving it without touching the reminder writes back the
      same row key and alarm key and the same reminder time; completion and soft-delete
      flags are reset, since the list screen builds a fresh Task. */
  lemma {:induction false} EditRoundTrip(t: Task, createdAt: int, f: Form, saveNow: int, resultNow: int)
    requires t.id != 0 && HasTitle(f)
    ensures var reply := SaveReply(Opened(EditIntent(t), createdAt), f, saveNow);
      reply.resultCode == RESULT_OK && reply.data.Some?
      && var u := ResultTask(reply.data.value, resultNow);
      u.id == t.id && u.title == f.title
      && (HasReminder(t) ==> u.reminderTime == t.reminderTime)
      && (HasAlarmKey(t) ==> u.alarmId == t.alarmId)
      && !u.isCompleted && !u.isDeleted
  {
    var s := Opened(EditIntent(t), createdAt);
    assert s.taskId == t.id && s.alarmId == t.alarmId;
  }

  /** After a new task's insert lands, an alarm armed by the callback is keyed by the task's
      alarm key and names the row the insert created. */
  lemma {:induction false} ArmedReminderNamesInsertedRow(rows: seq<Task>, lastId: int, t: Task,
                                                        alarms: map<int, Alarm>, enabled: bool, exact: bool, callbackNow: int)
    requires NeedsGeneratedId(t) && UniqueIds(rows) && lastId >= 0
    requires IsInt(lastId + 1)
    ensures var o := InsertIgnore(rows, lastId, t);
      var seen := t.(id := ToInt(o.rowId));
      var r := AlarmScheduler.Scheduled(alarms, seen, enabled, exact, callbackNow);
      r != alarms ==>
        t.alarmId in r && r[t.alarmId].extras.taskId == Some(o.rowId)
        && ContainsId(o.rows, o.rowId) && seen in o.rows
  {
    var o := InsertIgnore(rows, lastId, t);
    assert o.rows[|rows|] == t.(id := o.rowId);
  }

  class MainActivity {
    const repository: TaskRepository.TaskRepository
    const alarmScheduler: AlarmScheduler.AlarmScheduler
    const notifications: NotificationManager
    var shouldScrollToTop: bool

    constructor(repository: TaskRepository.TaskRepository, alarmScheduler: AlarmScheduler.AlarmScheduler,
                notifications: NotificationManager)
      ensures this.repository == repository && this.alarmScheduler == alarmScheduler
      ensures this.notifications == notifications && !shouldScrollToTop
    {
      this.repository := repository;
      this.alarmScheduler := alarmScheduler;
      this.notifications := notifications;
      shouldScrollToTop := false;
    }

    function Enabled(): bool
      reads alarmScheduler, alarmScheduler.prefs
    {
      AlarmScheduler.NotificationsEnabled(alarmScheduler.prefs.booleans)
    }

    function Exact(): bool
      reads alarmScheduler, alarmScheduler.alarmManager
    {
      AlarmScheduler.CanScheduleExactAlarms(alarmScheduler.sdkInt, alarmScheduler.alarmManager.exactAlarmsGranted)
    }

    /** The activity-result callback for the editor. `toast` is the "Task can't be deleted"
        message. */
    method OnActivityResult(reply: Reply, now: int, callbackNow: int) returns (toast: Option<string>)
      requires repository.dao.Valid()
      modifies repository.dao, alarmScheduler.alarmManager`alarms, alarmScheduler`settingsPrompts, this`shouldScrollToTop
      ensures repository.dao.Valid()
      // RESULT_OK, existing task: update, then schedule or cancel.
      ensures reply.resultCode == RESULT_OK && reply.data.Some? && reply.data.value.id.GetOr(0) != 0 ==>
        var t := ResultTask(reply.data.value, now);
        repository.dao.rows == Replace(old(repository.dao.rows), t)
        && repository.dao.lastId == old(repository.dao.lastId)
        && alarmScheduler.alarmManager.alarms == (
             if ArmAfterWrite(t) then AlarmScheduler.Scheduled(old(alarmScheduler.alarmManager.alarms), t, Enabled(), Exact(), callbackNow)
             else AlarmScheduler.Cancelled(old(alarmScheduler.alarmManager.alarms), t.alarmId))
        && shouldScrollToTop == old(shouldScrollToTop) && toast.None?
      // RESULT_OK, new task: insert, the callback sees the generated id, then schedule or nothing.
      ensures reply.resultCode == RESULT_OK && reply.data.Some? && reply.data.value.id.GetOr(0) == 0 ==>
        var t := ResultTask(reply.data.value, now);
        var o := InsertIgnore(old(repository.dao.rows), old(repository.dao.lastId), t);
        var seen := t.(id := ToInt(o.rowId));
        repository.dao.rows == o.rows && repository.dao.lastId == o.lastId
        && alarmScheduler.alarmManager.alarms == (
             if ArmAfterWrite(t) then AlarmScheduler.Scheduled(old(alarmScheduler.alarmManager.alarms), seen, Enabled(), Exact(), callbackNow)
             else old(alarmScheduler.alarmManager.alarms))
        && shouldScrollToTop && toast.None?
      // RESULT_DELETE: the id defaults to -1, which deletes nothing.
      ensures reply.resultCode == RESULT_DELETE && reply.data.Some? && reply.data.value.id.GetOr(-1) == -1 ==>
        repository.dao.rows == old(repository.dao.rows) && toast == Some("Task can't be deleted")
      ensures reply.resultCode == RESULT_DELETE && reply.data.Some? && reply.data.value.id.GetOr(-1) != -1 ==>
        repository.dao.rows == Filter(old(repository.dao.rows), OtherThan(reply.data.value.id.value)) && toast.None?
      // A delete never touches alarms; any other reply changes nothing.
      ensures !(reply.resultCode == RESULT_OK && reply.data.Some?) ==>
        alarmScheduler.alarmManager.alarms == old(alarmScheduler.alarmManager.alarms)
        && repository.dao.lastId == old(repository.dao.lastId) && shouldScrollToTop == old(shouldScrollToTop)
      ensures reply.data.None? || (reply.resultCode != RESULT_OK && reply.resultCode != RESULT_DELETE) ==>
        repository.dao.rows == old(repository.dao.rows) && toast.None?
    {
      toast := None;
      if reply.resultCode == RESULT_OK && reply.data.Some? {
        var data := reply.data.value;
        var id := data.id.GetOr(0);
        var reminderTime := data.reminderTime.GetOr(0);
        var task := NewTask();
        if id != 0 {
          task := task.(id := id, alarmId := data.alarmId.GetOr(0));
        } else {
          task := task.(alarmId := ToInt(now));
        }
        task := task.(title := data.title, description := data.description, priority := data.priority,
                      reminderTime := reminderTime, repeat := data.repeat);
        if id != 0 {
          var forCallback := repository.UpdateThen(task);
          if reminderTime > 0 && forCallback.alarmId != 0 {
            alarmScheduler.Schedule(forCallback, callbackNow);
          } else {
            alarmScheduler.Cancel(forCallback);
          }
        } else {
          var forCallback := repository.InsertThen(task);
          if reminderTime > 0 && forCallback.alarmId != 0 {
            alarmScheduler.Schedule(forCallback, callbackNow);
          }
          shouldScrollToTop := true;
        }
      } else if reply.resultCode == RESULT_DELETE && reply.data.Some? {
        var id := reply.data.value.id.GetOr(-1);
        if id == -1 {
          toast := Some("Task can't be deleted");
          return;
        }
        var task := NewTask().(id := id);
        repository.Delete(task);
      }
    }

    /** onTaskCompleted: the flag is set and the row updated; a completed task's notification
        is removed, but its alarm stays armed. */
    method OnTaskCompleted(task: Task, isCompleted: bool)
      requires repository.dao.Valid()
      modifies repository.dao`rows, notifications`posted
      ensures repository.dao.Valid()
      ensures repository.dao.rows == Replace(old(repository.dao.rows), task.(isCompleted := isCompleted))
      ensures isCompleted ==> notifications.posted == old(notifications.posted) - {task.id}
      ensures !isCompleted ==> notifications.posted == old(notifications.posted)
    {
      var t := task.(isCompleted := isCompleted);
      repository.Update(t);
      if isCompleted {
        notifications.Cancel(t.id);
      }
    }

    /** onTaskClicked: the editor is launched with the task's extras. */
    method OnTaskClicked(task: Task) returns (launch: EditorExtras)
      ensures launch == EditIntent(task)
    {
      launch := EditorExtras(Some(task.id), Some(task.alarmId), task.title, task.description,
                             task.priority, Some(task.reminderTime), task.repeat);
    }
  }
}
