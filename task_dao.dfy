/** TaskDao: the `tasks` table as an in-memory sequence of rows, its six queries as
    functions of the rows, and its four writes as methods on the table. */
module TaskDao {
  import opened JavaLang
  import opened TaskModel
  import opened TaskQuery

  /** Whether some row has primary key id. */
  function ContainsId(rows: seq<Task>, id: int): (b: bool)
    ensures b <==> exists t :: t in rows && t.id == id
  {
    if rows == [] then false
    else
      assert rows == [rows[0]] + rows[1..];
      rows[0].id == id || ContainsId(rows[1..], id)
  }

  /** `@Update`: every row whose primary key is task.id takes all of task's columns. */
  function Replace(rows: seq<Task>, task: Task): (r: seq<Task>)
    ensures |r| == |rows|
    ensures forall i :: 0 <= i < |rows| && rows[i].id == task.id ==> r[i] == task
    ensures forall i :: 0 <= i < |rows| && rows[i].id != task.id ==> r[i] == rows[i]
  {
    if rows == [] then []
    else [if rows[0].id == task.id then task else rows[0]] + Replace(rows[1..], task)
  }

  /** getAllTasks: SELECT * FROM tasks WHERE isDeleted = 0 ORDER BY isCompleted ASC, id DESC. */
  function GetAllTasks(rows: seq<Task>): (r: seq<Task>)
    ensures forall t :: t in r <==> t in rows && !t.isDeleted
    ensures multiset(r) == multiset(Filter(rows, Live))
    ensures forall i, j :: 0 <= i < j < |r| && r[i].isCompleted ==> r[j].isCompleted
    ensures forall i, j :: 0 <= i < j < |r| && r[i].isCompleted == r[j].isCompleted ==> r[i].id >= r[j].id
  {
    var live := Filter(rows, Live);
    var r := Sort(IncompleteFirstThenIdDesc, live);
    assert forall t :: t in live <==> t in rows && !t.isDeleted;
    assert forall t :: t in r <==> t in multiset(live);
    r
  }

  /** getAllTasksSync: SELECT * FROM tasks WHERE isDeleted = 0 (in table order). */
  function GetAllTasksSync(rows: seq<Task>): (r: seq<Task>)
    ensures forall t :: t in r <==> t in rows && !t.isDeleted
  {
    Filter(rows, Live)
  }

  /** searchTasks: the live rows whose title or description is LIKE the query, id descending. */
  function SearchTasks(rows: seq<Task>, like: string -> bool): (r: seq<Task>)
    ensures forall t :: t in r <==> t in rows && !t.isDeleted && (Like(like, t.title) || Like(like, t.description))
    ensures multiset(r) == multiset(Filter(rows, Matching(like)))
    ensures forall i, j :: 0 <= i < j < |r| ==> r[i].id >= r[j].id
  {
    var hits := Filter(rows, Matching(like));
    var r := Sort(IdDesc, hits);
    forall t ensures t in r <==> t in rows && !t.isDeleted && (Like(like, t.title) || Like(like, t.description)) {
      assert t in r <==> t in multiset(hits);
      assert t in hits <==> t in rows && Keeps(Matching(like), t);
    }
    r
  }

  /** getDeletedTasks: SELECT * FROM tasks WHERE isDeleted = 1 ORDER BY deletedTimestamp DESC. */
  function GetDeletedTasks(rows: seq<Task>): (r: seq<Task>)
    ensures forall t :: t in r <==> t in rows && t.isDeleted
    ensures multiset(r) == multiset(Filter(rows, InBin))
    ensures forall i, j :: 0 <= i < j < |r| ==> r[i].deletedTimestamp >= r[j].deletedTimestamp
  {
    var bin := Filter(rows, InBin);
    var r := Sort(DeletedTimestampDesc, bin);
    assert forall t :: t in r <==> t in multiset(bin);
    r
  }

  /** Emptying the bin leaves no deleted row and every live row where it was. */
  lemma BinEmptiedKeepsLiveRows(rows: seq<Task>)
    ensures GetDeletedTasks(Filter(rows, Live)) == []
    ensures GetAllTasksSync(Filter(rows, Live)) == GetAllTasksSync(rows)
  {
    FilterNarrows(rows, Live, Live);
  }

  /** Purging with a threshold leaves every live row where it was, keeps every deleted row
      not older than the threshold, and keeps no deleted row older than it. */
  lemma PurgeKeepsLiveRows(rows: seq<Task>, threshold: int)
    ensures GetAllTasksSync(Filter(rows, NotExpired(threshold))) == GetAllTasksSync(rows)
    ensures forall t :: t in rows && t.isDeleted && t.deletedTimestamp >= threshold ==>
      t in GetDeletedTasks(Filter(rows, NotExpired(threshold)))
    ensures forall t :: t in GetDeletedTasks(Filter(rows, NotExpired(threshold))) ==> t.deletedTimestamp >= threshold
  {
    FilterNarrows(rows, NotExpired(threshold), Live);
  }

  /** What an insert returns and leaves behind: the row id (-1 when ignored), the rows
      and the largest key handed out. */
  datatype Inserted = Inserted(rowId: int, rows: seq<Task>, lastId: int)

  /** `@Insert(onConflict = IGNORE)` on rows whose largest key so far is lastId: id 0 takes
      the next key; an existing key ignores the row and reports -1; any other id is kept. */
  function InsertIgnore(rows: seq<Task>, lastId: int, task: Task): (o: Inserted)
    ensures NeedsGeneratedId(task) ==> o.rowId == lastId + 1
    ensures !NeedsGeneratedId(task) && ContainsId(rows, task.id) ==> o == Inserted(-1, rows, lastId)
    ensures !NeedsGeneratedId(task) && !ContainsId(rows, task.id) ==> o.rowId == task.id
    ensures !(!NeedsGeneratedId(task) && ContainsId(rows, task.id)) ==> o.rows == rows + [task.(id := o.rowId)]
    ensures o.lastId >= lastId
  {
    if NeedsGeneratedId(task) then
      Inserted(lastId + 1, rows + [task.(id := lastId + 1)], lastId + 1)
    else if ContainsId(rows, task.id) then
      Inserted(-1, rows, lastId)
    else
      Inserted(task.id, rows + [task], if task.id > lastId then task.id else lastId)
  }

  /** An insert keeps the primary keys distinct and below the key counter, and a row that
      lands can be found under the id the insert returned. */
  lemma InsertIgnoreKeepsKeys(rows: seq<Task>, lastId: int, task: Task)
    requires UniqueIds(rows) && lastId >= 0 && forall t :: t in rows ==> t.id <= lastId
    ensures var o := InsertIgnore(rows, lastId, task);
      UniqueIds(o.rows) && o.lastId >= 0 && (forall t :: t in o.rows ==> t.id <= o.lastId)
      && (!(!NeedsGeneratedId(task) && ContainsId(rows, task.id)) ==> ContainsId(o.rows, o.rowId))
  {
    var o := InsertIgnore(rows, lastId, task);
    if !(!NeedsGeneratedId(task) && ContainsId(rows, task.id)) {
      assert o.rows[|rows|] == task.(id := o.rowId);
      forall i | 0 <= i < |rows| ensures rows[i].id != o.rowId {
        assert rows[i] in rows;
      }
    }
  }

  class TaskTable {
    var rows: seq<Task>
    /** The largest primary key handed out so far (the AUTOINCREMENT sequence). */
    var lastId: int

    predicate Valid()
      reads this
    {
      UniqueIds(rows) && lastId >= 0 && forall t :: t in rows ==> t.id <= lastId
    }

    constructor()
      ensures Valid() && rows == [] && lastId == 0
    {
      rows := [];
      lastId := 0;
    }

    /** `@Insert(onConflict = IGNORE)`: id 0 asks for a generated key; an id already in
        the table leaves the table as it was and returns -1. */
    method Insert(task: Task) returns (rowId: int)
      requires Valid()
      modifies this
      ensures Valid()
      ensures InsertIgnore(old(rows), old(lastId), task) == Inserted(rowId, rows, lastId)
    {
      InsertIgnoreKeepsKeys(rows, lastId, task);
      var o := InsertIgnore(rows, lastId, task);
      rowId, rows, lastId := o.rowId, o.rows, o.lastId;
    }

    /** `@Update`: the row with task's primary key takes task's columns; no row, no change. */
    method Update(task: Task)
      requires Valid()
      modifies this`rows
      ensures Valid()
      ensures rows == Replace(old(rows), task)
    {
      rows := Replace(rows, task);
    }

    /** `@Delete`: removes the row with task's primary key. */
    method Delete(task: Task)
      requires Valid()
      modifies this`rows
      ensures Valid()
      ensures rows == Filter(old(rows), OtherThan(task.id))
    {
      FilterKeepsUniqueIds(rows, OtherThan(task.id));
      rows := Filter(rows, OtherThan(task.id));
    }

    /** deleteOldTasks: DELETE FROM tasks WHERE isDeleted = 1 AND deletedTimestamp < :threshold. */
    method DeleteOldTasks(threshold: int)
      requires Valid()
      modifies this`rows
      ensures Valid()
      ensures rows == Filter(old(rows), NotExpired(threshold))
    {
      FilterKeepsUniqueIds(rows, NotExpired(threshold));
      rows := Filter(rows, NotExpired(threshold));
    }

    /** deleteAllDeletedTasks: DELETE FROM tasks WHERE isDeleted = 1. */
    method DeleteAllDeletedTasks()
      requires Valid()
      modifies this`rows
      ensures Valid()
      ensures rows == Filter(old(rows), Live)
    {
      FilterKeepsUniqueIds(rows, Live);
      rows := Filter(rows, Live);
    }
  }
}
