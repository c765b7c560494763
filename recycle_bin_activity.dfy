/** RecycleBinActivity: the soft-deleted tasks, purged of those older than thirty days on
    every resume, with a "delete all" action that empties the bin. */
module RecycleBinActivity {
  import opened JavaLang
  import opened TaskModel
  import opened TaskQuery
  import opened TaskDao
  import RecycleBinAdapter

  /** 30L * 24 * 60 * 60 * 1000. */
  const RETENTION_MILLIS: int := 2_592_000_000

  /** onResume's threshold: now minus thirty days, as a long subtraction. */
  function RetentionThreshold(now: int): (t: int)
    ensures IsLong(t)
    ensures IsLong(now - RETENTION_MILLIS) ==> t == now - RETENTION_MILLIS
  {
    WrapLong(now - RETENTION_MILLIS)
  }

  /** "Delete all" is enabled iff the bin shows something. */
  function DeleteAllEnabled(shown: seq<Task>): (b: bool)
    ensures b <==> exists t :: t in shown
  {
    assert shown != [] ==> shown[0] in shown;
    shown != []
  }

  /** After "delete all" the bin is empty, so the action is disabled. */
  lemma EmptiedBinDisablesDeleteAll(rows: seq<Task>)
    ensures !DeleteAllEnabled(GetDeletedTasks(Filter(rows, Live)))
  {
    BinEmptiedKeepsLiveRows(rows);
  }

  /** The purge and the days-left label agree: a row the purge at now removes shows 0 days
      left, and a row shown with days left survives that purge. */
  lemma {:induction false} PurgeMatchesDaysLeft(now: int, t: Task)
    requires t.isDeleted && t.deletedTimestamp <= now
    requires IsLong(now - RETENTION_MILLIS) && IsLong(now - t.deletedTimestamp)
    ensures !Keeps(NotExpired(RetentionThreshold(now)), t) ==> RecycleBinAdapter.DaysLeft(now, t.deletedTimestamp) == 0
    ensures RecycleBinAdapter.DaysLeft(now, t.deletedTimestamp) > 0 ==> Keeps(NotExpired(RetentionThreshold(now)), t)
  {
    var diff := now - t.deletedTimestamp;
    if t.deletedTimestamp < now - RETENTION_MILLIS {
      assert diff > RETENTION_MILLIS;
      assert diff / RecycleBinAdapter.DAY_MILLIS >= 30;
    }
  }

  class RecycleBinActivity {
    const dao: TaskTable

    constructor(dao: TaskTable)
      ensures this.dao == dao
    {
      this.dao := dao;
    }

    /** onResume at clock reading now: the expired rows are deleted. */
    method OnResume(now: int)
      requires dao.Valid()
      modifies dao`rows
      ensures dao.Valid()
      ensures dao.rows == Filter(old(dao.rows), NotExpired(RetentionThreshold(now)))
    {
      var threshold := WrapLong(now - RETENTION_MILLIS);
      dao.DeleteOldTasks(threshold);
    }

    /** The confirm button of the "delete all" dialog. */
    method ConfirmDeleteAll()
      requires dao.Valid()
      modifies dao`rows
      ensures dao.Valid()
      ensures dao.rows == Filter(old(dao.rows), Live)
    {
      dao.DeleteAllDeletedTasks();
    }
  }
}
