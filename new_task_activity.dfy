/** NewTaskActivity: the add/edit screen. It is opened with the extras of an existing task
    or with none, keeps the task's id and alarm key in fields, and answers with a reply
    intent; it never writes the store and never arms an alarm. */
module NewTaskActivity {
  import opened JavaLang
  import opened Android
  import TaskModel
  import AlarmScheduler

  const RESULT_DELETE: int := 2
  const NONE_CHOICE: string := "NONE"

  /** The extras of an editor intent (EXTRA_ID, EXTRA_ALARM_ID, EXTRA_TITLE,
      EXTRA_DESCRIPTION, EXTRA_PRIORITY, EXTRA_REMINDER_TIME, EXTRA_REPEAT); None is an
      absent extra. */
  datatype EditorExtras = EditorExtras(
    id: Option<int>,
    alarmId: Option<int>,
    title: JString,
    description: JString,
    priority: JString,
    reminderTime: Option<int>,
    repeat: JString)

  /** An intent with no extras. */
  const NO_EXTRAS: EditorExtras := EditorExtras(None, None, None, None, None, None, None)

  /** What the activity hands back: a result code and the reply intent, None when the
      activity finished without setting a result (the back arrow). */
  datatype Reply = Reply(resultCode: int, data: Option<EditorExtras>)

  /** The editor's own fields: taskId, alarmId and the calendar's instant. */
  datatype EditorState = EditorState(taskId: int, alarmId: int, calendarMillis: int)

  /** onCreate: an intent carrying EXTRA_ID loads id and alarm key (0 when absent) and a
      positive reminder time into the calendar; otherwise the calendar stays at the creation
      instant. */
  function Opened(launch: EditorExtras, createdAt: int): (s: EditorState)
    ensures launch.id.None? ==> s == EditorState(0, 0, createdAt)
    ensures launch.id.Some? ==> s.taskId == launch.id.value && s.alarmId == launch.alarmId.GetOr(0)
    ensures launch.id.Some? && launch.reminderTime.GetOr(0) > 0 ==> s.calendarMillis == launch.reminderTime.value
    ensures launch.id.None? || launch.reminderTime.GetOr(0) <= 0 ==> s.calendarMillis == createdAt
  {
    if launch.id.None? then EditorState(0, 0, createdAt)
    else
      var rt := launch.reminderTime.GetOr(0);
      EditorState(launch.id.value, launch.alarmId.GetOr(0), if rt > 0 then rt else createdAt)
  }

  /** The alarm key a save hands back: an existing key is kept; a missing one is taken
      from the clock, `(int) now`, only for a reminder in the future. */
  function AllocateAlarmId(alarmId: int, reminderTime: int, now: int): (a: int)
    ensures alarmId != 0 ==> a == alarmId
    ensures alarmId == 0 && reminderTime <= now ==> a == 0
    ensures alarmId == 0 && reminderTime > now ==> IsInt(a) && (now - a) % TWO_32 == 0
  {
    if alarmId == 0 && reminderTime > now then ToInt(now) else alarmId
  }

  /** The truncated clock can itself be 0: a reminder saved at that instant gets no alarm
      key, and is then never armed. */
  lemma AllocatedKeyCanBeZero()
    ensures AllocateAlarmId(0, 400 * TWO_32 + 1, 400 * TWO_32) == 0
  {
    assert ToInt(400 * TWO_32) == 0;
  }

  /** The screen's inputs at the moment of saving: the title and description texts (None:
      the view is missing) and the spinner selections (None: no spinner or no selection). */
  datatype Form = Form(title: JString, description: JString, priority: JString, repeat: JString)

  predicate HasTitle(f: Form) {
    f.title.Some? && f.title.value != []
  }

  /** The reply of the save button. */
  function SaveReply(s: EditorState, f: Form, now: int): (r: Reply)
    ensures !HasTitle(f) ==> r == Reply(RESULT_CANCELED, Some(NO_EXTRAS))
    ensures HasTitle(f) ==> r.resultCode == RESULT_OK && r.data.Some?
    ensures HasTitle(f) ==> var d := r.data.value;
      d.id == Some(s.taskId) && d.alarmId == Some(AllocateAlarmId(s.alarmId, s.calendarMillis, now))
      && d.title == f.title && d.description == Some(f.description.GetOr(""))
      && d.priority == Some(f.priority.GetOr(NONE_CHOICE)) && d.repeat == Some(f.repeat.GetOr(NONE_CHOICE))
      && d.reminderTime == Some(s.calendarMillis)
  {
    if !HasTitle(f) then Reply(RESULT_CANCELED, Some(NO_EXTRAS))
    else
      Reply(RESULT_OK, Some(EditorExtras(
        Some(s.taskId), Some(AllocateAlarmId(s.alarmId, s.calendarMillis, now)),
        f.title, Some(f.description.GetOr("")), Some(f.priority.GetOr(NONE_CHOICE)),
        Some(s.calendarMillis), Some(f.repeat.GetOr(NONE_CHOICE)))))
  }

  /** The reply of the delete menu item: the task id only for an existing task. */
  function DeleteReply(s: EditorState): (r: Reply)
    ensures r.resultCode == RESULT_DELETE && r.data.Some?
    ensures s.taskId != 0 ==> r.data.value.id == Some(s.taskId)
    ensures s.taskId == 0 ==> r.data.value == NO_EXTRAS
  {
    Reply(RESULT_DELETE, Some(if s.taskId != 0 then NO_EXTRAS.(id := Some(s.taskId)) else NO_EXTRAS))
  }

  class NewTaskActivity {
    const alarmScheduler: AlarmScheduler.AlarmScheduler
    var taskId: int
    var alarmId: int
    /** calendar.getTimeInMillis(). */
    var calendarMillis: int

    function State(): EditorState
      reads this
    {
      EditorState(taskId, alarmId, calendarMillis)
    }

    /** onCreate with the launching intent's extras, at clock reading createdAt. */
    constructor(alarmScheduler: AlarmScheduler.AlarmScheduler, launch: EditorExtras, createdAt: int)
      ensures this.alarmScheduler == alarmScheduler
      ensures State() == Opened(launch, createdAt)
    {
      this.alarmScheduler := alarmScheduler;
      taskId := 0;
      alarmId := 0;
      calendarMillis := createdAt;
      new;
      if launch.id.Some? {
        taskId := launch.id.value;
        alarmId := launch.alarmId.GetOr(0);
        var reminderTime := launch.reminderTime.GetOr(0);
        if reminderTime > 0 {
          calendarMillis := reminderTime;
        }
      }
    }

    /** The date and time pickers set the calendar to the chosen instant. */
    method PickReminder(millis: int)
      modifies this`calendarMillis
      ensures calendarMillis == millis
    {
      calendarMillis := millis;
    }

    /** The save button at clock reading now. `throws` stands for an exception raised while
        the views are read, before any field changes: the reply is then RESULT_CANCELED. */
    method Save(f: Form, now: int, throws: bool) returns (reply: Reply)
      modifies this`alarmId
      ensures throws ==> reply == Reply(RESULT_CANCELED, Some(NO_EXTRAS)) && alarmId == old(alarmId)
      ensures !throws ==> reply == SaveReply(old(State()), f, now)
      ensures !throws && HasTitle(f) ==> alarmId == AllocateAlarmId(old(alarmId), calendarMillis, now)
      ensures !throws && !HasTitle(f) ==> alarmId == old(alarmId)
    {
      if throws {
        return Reply(RESULT_CANCELED, Some(NO_EXTRAS));
      }
      if f.title.None? || f.title.value == [] {
        return Reply(RESULT_CANCELED, Some(NO_EXTRAS));
      }
      var description := if f.description.Some? then f.description.value else "";
      var priority := if f.priority.Some? then f.priority.value else NONE_CHOICE;
      var repeat := if f.repeat.Some? then f.repeat.value else NONE_CHOICE;
      var reminderTime := calendarMillis;
      if alarmId == 0 && reminderTime > now {
        alarmId := ToInt(now);
      }
      reply := Reply(RESULT_OK, Some(EditorExtras(Some(taskId), Some(alarmId), f.title, Some(description),
                                                  Some(priority), Some(reminderTime), Some(repeat))));
    }

    /** The delete menu item: an existing task's alarm is cancelled here, and its id goes
        back to the list screen. */
    method Delete() returns (reply: Reply)
      modifies alarmScheduler.alarmManager`alarms
      ensures reply == DeleteReply(State())
      ensures taskId != 0 ==>
        alarmScheduler.alarmManager.alarms == AlarmScheduler.Cancelled(old(alarmScheduler.alarmManager.alarms), alarmId)
      ensures taskId == 0 ==> alarmScheduler.alarmManager.alarms == old(alarmScheduler.alarmManager.alarms)
    {
      var data := NO_EXTRAS;
      if taskId != 0 {
        var task := TaskModel.NewTask().(id := taskId, alarmId := alarmId);
        alarmScheduler.Cancel(task);
        data := data.(id := Some(taskId));
      }
      reply := Reply(RESULT_DELETE, Some(data));
    }
  }
}
