/** UpcomingTasksRemoteViewsFactory: the home-screen widget's list of upcoming tasks,
    rebuilt from a snapshot of the live rows on every refresh. */
module UpcomingTasksRemoteViewsFactory {
  import opened JavaLang
  import opened TaskModel
  import opened TaskQuery

  /** The list a refresh builds: the not-completed tasks of the snapshot whose reminder is
      strictly after now, by ascending reminder time. */
  function UpcomingTasks(all: seq<Task>, now: int): (r: seq<Task>)
    ensures forall t :: t in r <==> t in all && !t.isCompleted && t.reminderTime > now
    ensures forall i, j :: 0 <= i < j < |r| ==> r[i].reminderTime <= r[j].reminderTime
    ensures multiset(r) == multiset(Filter(all, Upcoming(now)))
  {
    var kept := Filter(all, Upcoming(now));
    var r := Sort(ReminderTimeAsc, kept);
    forall t ensures t in r <==> t in all && !t.isCompleted && t.reminderTime > now {
      assert t in r <==> t in multiset(kept);
      assert t in kept <==> t in all && Keeps(Upcoming(now), t);
    }
    r
  }

  /** The sort is stable: tasks with equal reminder times keep their snapshot order. */
  lemma UpcomingKeepsSnapshotOrderOnTies(all: seq<Task>, now: int, x: Task)
    ensures TiesWith(ReminderTimeAsc, UpcomingTasks(all, now), x) == TiesWith(ReminderTimeAsc, Filter(all, Upcoming(now)), x)
  {
    SortIsStable(ReminderTimeAsc, Filter(all, Upcoming(now)), x);
  }

  /** The widget reports stable ids, but an id is a position: a refresh that brings in an
      earlier reminder moves the task formerly at position 0 and puts another under id 0. */
  lemma {:induction false} PositionZeroChangesHands(a: Task, b: Task, now: int)
    requires !a.isCompleted && !b.isCompleted && now < b.reminderTime < a.reminderTime
    ensures UpcomingTasks([a], now) == [a]
    ensures UpcomingTasks([a, b], now) == [b, a]
  {
    UpcomingOfOne(a, now);
    UpcomingOfTwo(a, b, now);
  }

  lemma UpcomingOfOne(a: Task, now: int)
    requires !a.isCompleted && now < a.reminderTime
    ensures UpcomingTasks([a], now) == [a]
  {
    var one := UpcomingTasks([a], now);
    assert |Filter([a], Upcoming(now))| <= 1;
    assert a in one;
  }

  lemma UpcomingOfTwo(a: Task, b: Task, now: int)
    requires !a.isCompleted && !b.isCompleted && now < b.reminderTime < a.reminderTime
    ensures UpcomingTasks([a, b], now) == [b, a]
  {
    var two := UpcomingTasks([a, b], now);
    assert |Filter([a, b], Upcoming(now))| <= 2;
    assert a in two && b in two;
    var i :| 0 <= i < |two| && two[i] == a;
    var k :| 0 <= k < |two| && two[k] == b;
    assert k < i;
  }

  /** One more row of the snapshot adds that row to the filtered prefix when it is kept. */
  lemma FilterStep(all: seq<Task>, i: nat, now: int)
    requires i < |all|
    ensures Filter(all[..i + 1], Upcoming(now))
      == Filter(all[..i], Upcoming(now)) + (if Keeps(Upcoming(now), all[i]) then [all[i]] else [])
  {
    assert all[..i + 1] == all[..i] + [all[i]];
    FilterAppend(all[..i], [all[i]], Upcoming(now));
    assert [all[i]][1..] == [];
  }

  /** What getViewAt puts on a row: the light or dark layout, the title and the reminder
      instant (formatted on screen). */
  datatype WidgetRow = WidgetRow(lightLayout: bool, title: JString, reminderTime: int)

  class UpcomingTasksRemoteViewsFactory {
    var upcomingTasks: seq<Task>
    /** The "THEME" extra equals "LIGHT". */
    const lightTheme: bool

    constructor(theme: JString)
      ensures upcomingTasks == [] && lightTheme == (theme == Some("LIGHT"))
    {
      upcomingTasks := [];
      lightTheme := theme == Some("LIGHT");
    }

    /** onDataSetChanged with the rows getAllTasksSync returned (None: null) at clock
        reading now: the previous list is discarded. */
    method OnDataSetChanged(snapshot: Option<seq<Task>>, now: int)
      modifies this`upcomingTasks
      ensures snapshot.None? ==> upcomingTasks == []
      ensures snapshot.Some? ==> upcomingTasks == UpcomingTasks(snapshot.value, now)
    {
      upcomingTasks := [];
      if snapshot.Some? {
        var all := snapshot.value;
        var i := 0;
        while i < |all|
          invariant 0 <= i <= |all|
          invariant upcomingTasks == Filter(all[..i], Upcoming(now))
        {
          var task := all[i];
          FilterStep(all, i, now);
          if !task.isCompleted && task.reminderTime > now {
            upcomingTasks := upcomingTasks + [task];
          }
          i := i + 1;
        }
        assert all[..|all|] == all;
        upcomingTasks := Sort(ReminderTimeAsc, upcomingTasks);
      }
    }

    method OnDestroy()
      modifies this`upcomingTasks
      ensures upcomingTasks == []
    {
      upcomingTasks := [];
    }

    /** getCount: the positions below the count are exactly those getViewAt fills. */
    function GetCount(): (n: nat)
      reads this
      ensures forall p: nat :: GetViewAt(p).Some? <==> p < n
    {
      |upcomingTasks|
    }

    /** getViewAt: null past the end of the list. */
    function GetViewAt(position: nat): (r: Option<WidgetRow>)
      reads this
      ensures r.None? <==> position >= |upcomingTasks|
      ensures r.Some? ==>
        r.value.title == upcomingTasks[position].title
        && r.value.reminderTime == upcomingTasks[position].reminderTime && r.value.lightLayout == lightTheme
    {
      if position >= |upcomingTasks| then None
      else Some(WidgetRow(lightTheme, upcomingTasks[position].title, upcomingTasks[position].reminderTime))
    }

    /** getItemId: the position itself, so an id names whatever row currently stands at
        that position, not a task. */
    function GetItemId(position: int): (id: int)
      reads this
      ensures id == position
      ensures 0 <= position < |upcomingTasks| ==>
        GetViewAt(id).Some? && GetViewAt(id).value.title == upcomingTasks[position].title
        && GetViewAt(id).value.reminderTime == upcomingTasks[position].reminderTime
    {
      position
    }
  }
}
