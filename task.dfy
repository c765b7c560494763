/** The `tasks` row (Task.java), with the soft-delete columns `isDeleted` and
    `deletedTimestamp` that the queries and the recycle bin use. */
module TaskModel {
  import opened JavaLang

  datatype Task = Task(
    /** Primary key; 0 means "not assigned yet": the store generates one on insert. */
    id: int,
    title: JString,
    description: JString,
    priority: JString,
    /** Epoch milliseconds; 0 means no reminder. */
    reminderTime: int,
    repeat: JString,
    isCompleted: bool,
    /** Request code of the task's alarm; 0 means no alarm key. */
    alarmId: int,
    isDeleted: bool,
    deletedTimestamp: int)

  /** A task is shown with a reminder when its reminder time is positive. */
  predicate HasReminder(t: Task) {
    t.reminderTime > 0
  }

  /** A task may be armed only under a non-zero alarm key. */
  predicate HasAlarmKey(t: Task) {
    t.alarmId != 0
  }

  /** The store assigns the primary key of a task inserted with id 0. */
  predicate NeedsGeneratedId(t: Task) {
    t.id == 0
  }

  /** `new Task()`: the field initialisers of Task.java. */
  function NewTask(): (t: Task)
    ensures !HasReminder(t) && !HasAlarmKey(t) && NeedsGeneratedId(t)
    ensures !t.isCompleted && !t.isDeleted
    ensures t.title == t.description == t.priority == t.repeat == Some("")
  {
    Task(0, Some(""), Some(""), Some(""), 0, Some(""), false, 0, false, 0)
  }
}
