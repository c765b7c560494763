/** RecycleBinAdapter: the rows of the recycle bin: days left before the purge, the diff
    callbacks and the routing of the two buttons. */
module RecycleBinAdapter {
  import opened JavaLang
  import opened TaskModel
  import opened TaskQuery

  const DAY_MILLIS: int := 86_400_000
  const RETENTION_DAYS: int := 30

  /** `30 - MILLISECONDS.toDays(now - deletedTimestamp)`, clamped at 0; the subtraction is a
      long subtraction and toDays truncates toward zero. */
  function DaysLeft(now: int, deletedTimestamp: int): (d: int)
    ensures d >= 0
    ensures IsLong(now - deletedTimestamp) && deletedTimestamp <= now ==>
      d <= RETENTION_DAYS && d == (if (now - deletedTimestamp) / DAY_MILLIS >= RETENTION_DAYS then 0
                                   else RETENTION_DAYS - (now - deletedTimestamp) / DAY_MILLIS)
    ensures IsLong(now - deletedTimestamp) && now < deletedTimestamp ==>
      d == RETENTION_DAYS + (deletedTimestamp - now) / DAY_MILLIS
  {
    var diff := WrapLong(now - deletedTimestamp);
    var left := RETENTION_DAYS - JavaDiv(diff, DAY_MILLIS);
    if left < 0 then 0 else left
  }

  /** Rows deleted in the future (a clock set back) show more than 30 days left. */
  lemma FutureDeletionShowsMoreThanThirty(now: int)
    requires IsLong(now) && IsLong(now + 2 * DAY_MILLIS)
    ensures DaysLeft(now, now + 2 * DAY_MILLIS) == 32
  {
    assert JavaDiv(-2 * DAY_MILLIS, DAY_MILLIS) == -2;
  }

  /** `String.equals` called on a reference: None is the NullPointerException of a null
      receiver. */
  function JavaEquals(a: JString, b: JString): (r: Option<bool>)
    ensures a.None? <==> r.None?
    ensures a.Some? ==> (r.value <==> b == a)
  {
    if a.None? then None else Some(b.Some? && b.value == a.value)
  }

  /** areItemsTheSame: the same primary key. */
  predicate ItemsTheSame(a: Task, b: Task) {
    a.id == b.id
  }

  /** Within one table, the diff's item identity picks out exactly one row: the primary key
      is unique. */
  lemma SameItemIsSameRow(rows: seq<Task>, i: nat, j: nat)
    requires UniqueIds(rows) && i < |rows| && j < |rows|
    ensures ItemsTheSame(rows[i], rows[j]) <==> i == j
  {
    if i > j {
      assert rows[j].id != rows[i].id;
    }
  }

  /** areContentsTheSame, evaluated left to right: a null title, description or priority
      on the old item that is reached throws (None); the repeat column is not compared. */
  function ContentsTheSame(a: Task, b: Task): (r: Option<bool>)
    ensures a.title.Some? && a.description.Some? && a.priority.Some? ==>
      r == Some(a.title == b.title && a.description == b.description && a.priority == b.priority
                && a.reminderTime == b.reminderTime && a.isCompleted == b.isCompleted && a.isDeleted == b.isDeleted)
    ensures a.title.None? ==> r.None?
  {
    match JavaEquals(a.title, b.title)
    case None => None
    case Some(false) => Some(false)
    case Some(true) =>
      match JavaEquals(a.description, b.description)
      case None => None
      case Some(false) => Some(false)
      case Some(true) =>
        match JavaEquals(a.priority, b.priority)
        case None => None
        case Some(false) => Some(false)
        case Some(true) =>
          Some(a.reminderTime == b.reminderTime && a.isCompleted == b.isCompleted && a.isDeleted == b.isDeleted)
  }

  /** Changing only the repeat column never changes the diff's answer. */
  lemma RepeatIsIgnored(a: Task, b: Task, repeat: JString)
    ensures ContentsTheSame(a, b.(repeat := repeat)) == ContentsTheSame(a, b)
    ensures ContentsTheSame(a.(repeat := repeat), b) == ContentsTheSame(a, b)
  {
  }

  /** A restore or a permanent delete handed to the listener. */
  datatype BinRequest = Restore(task: Task) | DeletePermanently(task: Task)
  datatype BinButton = RestoreButton | DeleteButton

  /** A button click reaches the listener, with the row's own task, only when a listener
      is set. */
  function OnBinButton(hasListener: bool, button: BinButton, task: Task): (r: Option<BinRequest>)
    ensures r.Some? <==> hasListener
    ensures r.Some? ==> r.value.task == task && (r.value.Restore? <==> button == RestoreButton)
  {
    if !hasListener then None
    else if button == RestoreButton then Some(Restore(task))
    else Some(DeletePermanently(task))
  }
}
