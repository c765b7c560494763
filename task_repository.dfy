/** TaskRepository: every write is one DAO write; the callback variants hand the callback
    the task as it stands once the write has landed. The Java callback is a Runnable that
    reads the very Task object written; here the write returns that task and the caller
    runs the callback's body right after. */
module TaskRepository {
  import opened JavaLang
  import opened TaskModel
  import opened TaskDao

  /** insert-with-callback assigns `task.id = (int) newId` before the callback runs: the
      callback sees the stored row when the insert landed, and id -1 when it was ignored. */
  lemma {:induction false} CallbackSeesInsertedRow(rows: seq<Task>, lastId: int, task: Task)
    ensures var o := InsertIgnore(rows, lastId, task);
      var ignored := !NeedsGeneratedId(task) && ContainsId(rows, task.id);
      (!ignored && IsInt(o.rowId) ==> task.(id := ToInt(o.rowId)) in o.rows)
      && (ignored ==> ToInt(o.rowId) == -1 && o.rows == rows)
  {
    var o := InsertIgnore(rows, lastId, task);
    if !(!NeedsGeneratedId(task) && ContainsId(rows, task.id)) {
      assert o.rows[|rows|] == task.(id := o.rowId);
    }
  }

  class TaskRepository {
    const dao: TaskTable

    constructor(dao: TaskTable)
      ensures this.dao == dao
    {
      this.dao := dao;
    }

    /** insert(task): one DAO insert, result discarded. */
    method Insert(task: Task)
      requires dao.Valid()
      modifies dao
      ensures dao.Valid()
      ensures dao.rows == InsertIgnore(old(dao.rows), old(dao.lastId), task).rows
      ensures dao.lastId == InsertIgnore(old(dao.rows), old(dao.lastId), task).lastId
    {
      var _ := dao.Insert(task);
    }

    /** insert(task, onComplete): the DAO insert, then `task.id = (int) newId`; seen is the
        task the callback reads. A null callback leaves only the write, as in Insert. */
    method InsertThen(task: Task) returns (seen: Task)
      requires dao.Valid()
      modifies dao
      ensures dao.Valid()
      ensures dao.rows == InsertIgnore(old(dao.rows), old(dao.lastId), task).rows
      ensures dao.lastId == InsertIgnore(old(dao.rows), old(dao.lastId), task).lastId
      ensures seen == task.(id := ToInt(InsertIgnore(old(dao.rows), old(dao.lastId), task).rowId))
    {
      var newId := dao.Insert(task);
      seen := task.(id := ToInt(newId));
    }

    /** update(task): one DAO update. */
    method Update(task: Task)
      requires dao.Valid()
      modifies dao`rows
      ensures dao.Valid()
      ensures dao.rows == Replace(old(dao.rows), task)
    {
      dao.Update(task);
    }

    /** update(task, onComplete): the DAO update, then the callback on the unchanged task. */
    method UpdateThen(task: Task) returns (seen: Task)
      requires dao.Valid()
      modifies dao`rows
      ensures dao.Valid()
      ensures dao.rows == Replace(old(dao.rows), task)
      ensures seen == task
    {
      dao.Update(task);
      seen := task;
    }

    /** delete(task): one DAO delete. */
    method Delete(task: Task)
      requires dao.Valid()
      modifies dao`rows
      ensures dao.Valid()
      ensures dao.rows == TaskQuery.Filter(old(dao.rows), TaskQuery.OtherThan(task.id))
    {
      dao.Delete(task);
    }
  }
}
