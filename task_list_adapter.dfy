/** TaskListAdapter: the diff callbacks of the main list and what a bound row shows. */
module TaskListAdapter {
  import opened JavaLang
  import opened TaskModel
  import opened TaskQuery

  /** areItemsTheSame: the same primary key. */
  predicate ItemsTheSame(a: Task, b: Task) {
    a.id == b.id
  }

  /** Within one table, the diff's item identity picks out exactly one row: the primary key
      is unique. */
  lemma SameItemIsSameRow(rows: seq<Task>, i: nat, j: nat)
    requires UniqueIds(rows) && i < |rows| && j < |rows|
    ensures ItemsTheSame(rows[i], rows[j]) <==> i == j
  {
    if i > j {
      assert rows[j].id != rows[i].id;
    }
  }

  /** areContentsTheSame: null-safe equality (Objects.equals) of title, description,
      priority and repeat, and equality of reminder time and completion; the alarm key and
      the soft-delete columns are not compared. */
  function ContentsTheSame(a: Task, b: Task): (same: bool)
    ensures same <==>
      a.(id := b.id, alarmId := b.alarmId, isDeleted := b.isDeleted, deletedTimestamp := b.deletedTimestamp) == b
  {
    a.title == b.title && a.description == b.description && a.priority == b.priority
    && a.reminderTime == b.reminderTime && a.repeat == b.repeat && a.isCompleted == b.isCompleted
  }

  /** Two rows the diff calls the same item with the same contents differ at most in the
      columns it does not compare. */
  lemma SameItemAndContents(a: Task, b: Task)
    requires ItemsTheSame(a, b) && ContentsTheSame(a, b)
    ensures a == b.(alarmId := a.alarmId, isDeleted := a.isDeleted, deletedTimestamp := a.deletedTimestamp)
  {
  }

  /** Character.toUpperCase on ASCII letters. */
  function UpperAscii(c: char): (u: char)
    ensures 'a' <= c <= 'z' ==> u as int == c as int - 32
    ensures !('a' <= c <= 'z') ==> u == c
  {
    if 'a' <= c <= 'z' then (c as int - 32) as char else c
  }

  /** `s.equalsIgnoreCase(t)` for ASCII t in upper case. */
  predicate EqualsIgnoreCase(s: string, upper: string) {
    |s| == |upper| && forall i :: 0 <= i < |s| ==> UpperAscii(s[i]) == upper[i]
  }

  /** The priority chip: a non-null, non-empty priority other than "NONE" in any case. */
  function ShowsPriorityChip(priority: JString): (b: bool)
    ensures b ==> priority.Some? && priority.value != [] && priority.value != "NONE" && priority.value != "none"
  {
    priority.Some? && priority.value != [] && !EqualsIgnoreCase(priority.value, "NONE")
  }

  /** Every spelling of "none" hides the chip; any other non-empty priority shows it. */
  lemma {:induction false} ChipHiddenExactlyForNone(p: string)
    requires p != []
    ensures !ShowsPriorityChip(Some(p)) <==>
      |p| == 4 && UpperAscii(p[0]) == 'N' && UpperAscii(p[1]) == 'O' && UpperAscii(p[2]) == 'N' && UpperAscii(p[3]) == 'E'
  {
    if |p| == 4 && UpperAscii(p[0]) == 'N' && UpperAscii(p[1]) == 'O' && UpperAscii(p[2]) == 'N' && UpperAscii(p[3]) == 'E' {
      assert EqualsIgnoreCase(p, "NONE");
    }
  }

  /** What bind shows. */
  datatype Row = Row(
    title: string,
    description: string,
    descriptionVisible: bool,
    chip: Option<string>,
    reminderVisible: bool,
    detailsVisible: bool,
    checked: bool)

  /** bind: nothing for a null task. */
  function Bind(task: Option<Task>): (r: Option<Row>)
    ensures r.None? <==> task.None?
    ensures r.Some? ==> var t := task.value; var row := r.value;
      row.title == t.title.GetOr("") && row.description == t.description.GetOr("")
      && (row.descriptionVisible <==> t.description.Some? && t.description.value != [])
      && (row.chip.Some? <==> ShowsPriorityChip(t.priority))
      && (row.chip.Some? ==> row.chip == t.priority)
      && (row.reminderVisible <==> HasReminder(t))
      && (row.detailsVisible <==> row.chip.Some? || row.reminderVisible)
      && row.checked == t.isCompleted
  {
    match task
    case None => None
    case Some(t) =>
      var chip := if ShowsPriorityChip(t.priority) then t.priority else None;
      Some(Row(t.title.GetOr(""), t.description.GetOr(""),
               t.description.Some? && t.description.value != [],
               chip, t.reminderTime > 0,
               ShowsPriorityChip(t.priority) || t.reminderTime > 0,
               t.isCompleted))
  }

  /** A task with the default values shows its empty title and nothing else. */
  lemma NewTaskRowIsBare()
    ensures var r := Bind(Some(NewTask()));
      r.Some? && !r.value.descriptionVisible && r.value.chip.None? && !r.value.reminderVisible
      && !r.value.detailsVisible && !r.value.checked
  {
  }
}
