# NextDO reminder engine in Dafny

NextDO is an Android to-do app. This project models its reminder engine and the logic
around it:

- the task store (the `tasks` table and its DAO);
- the write-then-callback ordering of the repository and the list screen;
- allocation of alarm keys;
- arming, cancelling and snoozing of reminders in the alarm service;
- posting and dismissing of notifications;
- the upcoming-tasks widget list, the recycle bin and the list adapters;
- the month grid of the date picker;
- the theme and reminder preferences.

There is one Dafny module per Java file. A few shared modules support them:

- `JavaLang`: null strings, the `(int)` cast, long wrap-around, truncating division, `Long.parseLong`.
- `Android`: the alarm service, the notification service and the shared preferences, reduced to the tables they keep.
- `TaskModel`: the `tasks` row.
- `TaskQuery`: row filters and stable orderings.
- `Gregorian`: days in a month and the weekday.

Android state is kept in classes with map fields:

- The alarm table maps a request code to (trigger time, exact or inexact, payload).
- The notification table maps a notification id to its content.
- Shared preferences are two typed maps.

Each state-changing handler is a method. Its `ensures` equates the new tables with a pure
function of the old ones, and the lemmas state the properties of that function. Clock
readings (`System.currentTimeMillis()`) are parameters named `now`. Where the Java
code hands a `Runnable` to a store write, the write returns the task as the callback
sees it, and the caller runs the callback body right after.

Where the app's design description and the code disagree, the model follows the code:

- A reminder whose time is not after `now` is dropped (AlarmScheduler.java:29), not fired at once.
- Without the exact-alarm privilege, `schedule` arms nothing and sends the user to the settings screen. It does not fall back to an inexact alarm.
- Delivery reads only the intent extras. It never checks whether the task was completed or deleted in the meantime.
- If a snooze intent carried the payload the scheduler arms, the snooze would re-arm under the task id, not under the task's `alarmId`, because that payload has no `alarm_id` (`SnoozeReceiver.SnoozedReminderEscapesCancel`). No code in the app sends such an intent: the reminder notification has no snooze action.
- A dismissed notification is not posted again. There is no debounce of duplicate fires. The boot receiver does nothing.
- Task.java declares no `isDeleted` and no `deletedTimestamp`, yet the queries and the recycle bin use both. The model's task row has them.
- ThemeManager reads an unset theme as "system", so the app follows the system. The settings screen reads it as "dark" and shows "Dark" (`ThemeManager.UnsetThemeShownDarkButFollowsSystem`).

## Model

| member | source | states |
|---|---|---|
| JavaLang.ToInt | app/src/main/java/com/shejan/nextdo/NewTaskActivity.java:138 | `(int) x` is a 32-bit value congruent to x modulo 2^32, and is x itself when x fits |
| JavaLang.WrapLong | app/src/main/java/com/shejan/nextdo/SnoozeReceiver.java:43 | a long sum is a 64-bit value congruent to the exact sum modulo 2^64, and is exact when it fits |
| JavaLang.JavaDiv | app/src/main/java/com/shejan/nextdo/SnoozeReceiver.java:70 | for a positive divisor, Java division rounds toward zero: the remainder has the dividend's sign and is smaller in size than the divisor |
| JavaLang.ParseLong | app/src/main/java/com/shejan/nextdo/SnoozeReceiver.java:40 | a parse succeeds exactly when an optional sign is followed by at least one digit and the signed value is a long (so "+300000" and "0300000" parse too); the result is that signed decimal value |
| JavaLang.NatToDigits | app/src/main/java/com/shejan/nextdo/SnoozeReceiver.java:71 | the decimal digits of n, with no leading zero, whose value is n |
| JavaLang.ParseLongRoundTrip | app/src/main/java/com/shejan/nextdo/SnoozeReceiver.java:40 | every long printed in decimal parses back to itself |
| Android.AlarmManager.SetExactAndAllowWhileIdle | app/src/main/java/com/shejan/nextdo/AlarmScheduler.java:37 | arming a request code puts an exact alarm under that code, replacing any earlier one |
| Android.AlarmManager.SetAndAllowWhileIdle | app/src/main/java/com/shejan/nextdo/SnoozeReceiver.java:64 | the same for an inexact alarm |
| Android.AlarmManager.Cancel | app/src/main/java/com/shejan/nextdo/AlarmScheduler.java:51 | cancelling removes exactly that request code |
| Android.NotificationManager.Notify | app/src/main/java/com/shejan/nextdo/ReminderBroadcastReceiver.java:48 | posting under an id replaces what that id showed |
| Android.NotificationManager.Cancel | app/src/main/java/com/shejan/nextdo/NotificationDismissReceiver.java:17 | cancelling removes exactly that id |
| Android.SharedPreferences.GetBoolean | app/src/main/java/com/shejan/nextdo/AlarmScheduler.java:57 | the stored value, or the caller's default when the key is unset |
| Android.SharedPreferences.GetString | app/src/main/java/com/shejan/nextdo/SnoozeReceiver.java:39 | the stored value, or the caller's default when the key is unset |
| Android.SharedPreferences.PutString | app/src/main/java/com/shejan/nextdo/SettingsActivity.java:66 | the key now holds the value and other keys are unchanged |
| Android.SharedPreferences.PutBoolean | app/src/main/java/com/shejan/nextdo/SettingsActivity.java:91 | the key now holds the value and other keys are unchanged |
| TaskModel.NewTask | app/src/main/java/com/shejan/nextdo/Task.java:8-16 | a new task has no reminder, no alarm key and an id for the store to assign; it is not completed or deleted, and its four strings are empty |
| TaskQuery.Filter | app/src/main/java/com/shejan/nextdo/TaskDao.java:35-36 | keeps exactly the rows that satisfy the WHERE clause and never adds rows |
| TaskQuery.FilterAppend | app/src/main/java/com/shejan/nextdo/UpcomingTasksRemoteViewsFactory.java:41-46 | filtering a concatenation is concatenating the filtered parts (row-by-row filtering) |
| TaskQuery.FilterNarrows | app/src/main/java/com/shejan/nextdo/TaskDao.java:45-49 | a narrower filter applied after a wider one equals the narrower filter alone |
| TaskQuery.FilterCommutes | app/src/main/java/com/shejan/nextdo/TaskDao.java:38 | the order of two WHERE conjuncts does not matter |
| TaskQuery.FilterKeepsUniqueIds | app/src/main/java/com/shejan/nextdo/TaskDao.java:45-49 | deleting rows keeps the primary keys distinct |
| TaskQuery.LeTotal | app/src/main/java/com/shejan/nextdo/TaskDao.java:32 | every ORDER BY used is total |
| TaskQuery.LeTransitive | app/src/main/java/com/shejan/nextdo/TaskDao.java:32 | every ORDER BY used is transitive |
| TaskQuery.InsertSorted | app/src/main/java/com/shejan/nextdo/UpcomingTasksRemoteViewsFactory.java:48 | inserting into a sorted list keeps it sorted and adds exactly that element |
| TaskQuery.Sort | app/src/main/java/com/shejan/nextdo/UpcomingTasksRemoteViewsFactory.java:48 | the result is sorted by the ordering and is a permutation of the input |
| TaskQuery.TiesWithInsert | app/src/main/java/com/shejan/nextdo/UpcomingTasksRemoteViewsFactory.java:48 | inserting an element keeps the order of the elements that tie with any x |
| TaskQuery.SortIsStable | app/src/main/java/com/shejan/nextdo/UpcomingTasksRemoteViewsFactory.java:48 | the sort is stable: elements with equal keys keep their relative order |
| TaskDao.ContainsId | app/src/main/java/com/shejan/nextdo/TaskDao.java:20-21 | some row has the given primary key |
| TaskDao.Replace | app/src/main/java/com/shejan/nextdo/TaskDao.java:23-24 | `@Update`: the row with the task's key takes the task's columns; every other row and the row count stay the same |
| TaskDao.GetAllTasks | app/src/main/java/com/shejan/nextdo/TaskDao.java:32-33 | a permutation of the rows not deleted (duplicates kept), incomplete ones first, then by id descending |
| TaskDao.GetAllTasksSync | app/src/main/java/com/shejan/nextdo/TaskDao.java:35-36 | exactly the rows not deleted |
| TaskDao.SearchTasks | app/src/main/java/com/shejan/nextdo/TaskDao.java:38-39 | a permutation of the rows not deleted whose title or description matches LIKE, by id descending |
| TaskDao.GetDeletedTasks | app/src/main/java/com/shejan/nextdo/TaskDao.java:42-43 | a permutation of the deleted rows, newest deletion first |
| TaskDao.BinEmptiedKeepsLiveRows | app/src/main/java/com/shejan/nextdo/TaskDao.java:48-49 | after deleteAllDeletedTasks no deleted row is left and every live row is still there, in order |
| TaskDao.PurgeKeepsLiveRows | app/src/main/java/com/shejan/nextdo/TaskDao.java:45-46 | deleteOldTasks keeps every live row in place and every deleted row not older than the threshold, and leaves no deleted row older than it |
| TaskDao.InsertIgnore | app/src/main/java/com/shejan/nextdo/TaskDao.java:20-21 | id 0 takes the next generated key; an existing key leaves the table unchanged and returns -1; any other key is stored as given, after the rows already there |
| TaskDao.InsertIgnoreKeepsKeys | app/src/main/java/com/shejan/nextdo/TaskDao.java:20-21 | an insert keeps keys distinct and under the key counter, and a stored row can be found under the returned id |
| TaskDao.TaskTable.Insert | app/src/main/java/com/shejan/nextdo/TaskDao.java:20-21 | the table and the return value are those of InsertIgnore, and key uniqueness is preserved |
| TaskDao.TaskTable.Update | app/src/main/java/com/shejan/nextdo/TaskDao.java:23-24 | the rows become Replace of the old rows |
| TaskDao.TaskTable.Delete | app/src/main/java/com/shejan/nextdo/TaskDao.java:26-27 | the row with the task's key is removed and nothing else |
| TaskDao.TaskTable.DeleteOldTasks | app/src/main/java/com/shejan/nextdo/TaskDao.java:45-46 | exactly the deleted rows older than the threshold are removed |
| TaskDao.TaskTable.DeleteAllDeletedTasks | app/src/main/java/com/shejan/nextdo/TaskDao.java:48-49 | exactly the deleted rows are removed |
| TaskRepository.CallbackSeesInsertedRow | app/src/main/java/com/shejan/nextdo/TaskRepository.java:36-40 | after `task.id = (int) newId` the callback sees the stored row; after an ignored insert it sees id -1 and the table is unchanged |
| TaskRepository.TaskRepository.Insert | app/src/main/java/com/shejan/nextdo/TaskRepository.java:26-30 | exactly one DAO insert |
| TaskRepository.TaskRepository.InsertThen | app/src/main/java/com/shejan/nextdo/TaskRepository.java:32-43 | one DAO insert; then the callback sees the task with `(int)` of the returned row id |
| TaskRepository.TaskRepository.Update | app/src/main/java/com/shejan/nextdo/TaskRepository.java:45-49 | exactly one DAO update |
| TaskRepository.TaskRepository.UpdateThen | app/src/main/java/com/shejan/nextdo/TaskRepository.java:51-60 | one DAO update, then the callback on the same task |
| TaskRepository.TaskRepository.Delete | app/src/main/java/com/shejan/nextdo/TaskRepository.java:62-66 | exactly one DAO delete |
| AlarmScheduler.NotificationsEnabled | app/src/main/java/com/shejan/nextdo/AlarmScheduler.java:55-58 | the "notifications" preference, true when unset |
| AlarmScheduler.CanScheduleExactAlarms | app/src/main/java/com/shejan/nextdo/AlarmScheduler.java:60-65 | always true below API level 31; from 31 on, the granted privilege |
| AlarmScheduler.ReminderAlarm | app/src/main/java/com/shejan/nextdo/AlarmScheduler.java:30-37 | the armed alarm is exact, fires at reminderTime and carries only the title and the task id |
| AlarmScheduler.Scheduled | app/src/main/java/com/shejan/nextdo/AlarmScheduler.java:24-45 | the alarm table changes only when notifications are enabled, the reminder is after now, the alarm key is non-zero and exact alarms are allowed; then the task's alarm is set under its alarmId and no other key changes |
| AlarmScheduler.Cancelled | app/src/main/java/com/shejan/nextdo/AlarmScheduler.java:47-53 | key 0 changes nothing; otherwise exactly the alarmId entry is removed |
| AlarmScheduler.ScheduleTwiceIsScheduleOnce | app/src/main/java/com/shejan/nextdo/AlarmScheduler.java:34-37 | scheduling twice equals scheduling once, and the table grows by at most one entry |
| AlarmScheduler.CancelUndoesSchedule | app/src/main/java/com/shejan/nextdo/AlarmScheduler.java:47-53 | cancel after schedule equals cancel alone |
| AlarmScheduler.NewTaskIsNeverArmed | app/src/main/java/com/shejan/nextdo/AlarmScheduler.java:29 | a task with default fields is never armed |
| AlarmScheduler.AlarmScheduler.Schedule | app/src/main/java/com/shejan/nextdo/AlarmScheduler.java:24-45 | the alarm table becomes Scheduled of the old one; the settings prompt is shown exactly when a due reminder lacks the exact privilege |
| AlarmScheduler.AlarmScheduler.Cancel | app/src/main/java/com/shejan/nextdo/AlarmScheduler.java:47-53 | the alarm table becomes Cancelled of the old one |
| ReminderBroadcastReceiver.ContentText | app/src/main/java/com/shejan/nextdo/ReminderBroadcastReceiver.java:28-31 | the title, or "You have a reminder" for a null title; with a non-empty description, the printed title, ": " and the description |
| ReminderBroadcastReceiver.NullTitleWithDescription | app/src/main/java/com/shejan/nextdo/ReminderBroadcastReceiver.java:29-31 | a null title with a description gives text starting with "null: " instead of the fallback |
| ReminderBroadcastReceiver.ReminderNotification | app/src/main/java/com/shejan/nextdo/ReminderBroadcastReceiver.java:33-43 | the title "NextDO Reminder", high priority, and the text above |
| ReminderBroadcastReceiver.Delivered | app/src/main/java/com/shejan/nextdo/ReminderBroadcastReceiver.java:45-49 | without the permission nothing changes; with it, the notification replaces the one under taskId (0 when the extra is absent) and other ids stay |
| ReminderBroadcastReceiver.DeliveringArmedReminder | app/src/main/java/com/shejan/nextdo/ReminderBroadcastReceiver.java:20-22 | a fired reminder shows the task's title or the fallback under the task id, and never a description |
| ReminderBroadcastReceiver.OnReceive | app/src/main/java/com/shejan/nextdo/ReminderBroadcastReceiver.java:19-50 | the notification table becomes Delivered of the old one |
| NotificationDismissReceiver.Dismissed | app/src/main/java/com/shejan/nextdo/NotificationDismissReceiver.java:12-18 | a positive taskId removes exactly that notification; a missing or non-positive one changes nothing |
| NotificationDismissReceiver.DismissIsIdempotent | app/src/main/java/com/shejan/nextdo/NotificationDismissReceiver.java:15-18 | dismissing twice equals dismissing once |
| NotificationDismissReceiver.OnReceive | app/src/main/java/com/shejan/nextdo/NotificationDismissReceiver.java:11-19 | the notification table becomes Dismissed of the old one |
| ReminderWorker.NotificationKey | app/src/main/java/com/shejan/nextdo/ReminderWorker.java:44 | the task id when non-zero, else a 32-bit value congruent to now |
| ReminderWorker.KeyCanBeZero | app/src/main/java/com/shejan/nextdo/ReminderWorker.java:44 | with no task id, a clock whose low 32 bits are zero posts under key 0 |
| ReminderWorker.WorkerNotification | app/src/main/java/com/shejan/nextdo/ReminderWorker.java:34-40 | the title, or "You have a reminder." for a null title, and not high priority |
| ReminderWorker.DoWork | app/src/main/java/com/shejan/nextdo/ReminderWorker.java:26-47 | posts one notification under NotificationKey with no permission check and always succeeds |
| SnoozeReceiver.Toast | app/src/main/java/com/shejan/nextdo/SnoozeReceiver.java:69-76 | "Snoozed for m minutes" after a snooze, the failure message after a SecurityException, otherwise nothing |
| SnoozeReceiver.RequestCode | app/src/main/java/com/shejan/nextdo/SnoozeReceiver.java:53-55 | alarm_id when it is non-zero, else the task id |
| SnoozeReceiver.Forwarded | app/src/main/java/com/shejan/nextdo/SnoozeReceiver.java:47-51 | the title, task id and description are passed on unchanged, and an absent alarm_id becomes 0 |
| SnoozeReceiver.SnoozeKind | app/src/main/java/com/shejan/nextdo/SnoozeReceiver.java:62-67 | inexact exactly when the API level is 31 or above and the privilege is missing |
| SnoozeReceiver.Snoozing | app/src/main/java/com/shejan/nextdo/SnoozeReceiver.java:20-78 | task id 0 changes nothing; otherwise the notification is removed first. A malformed duration then stops the handler. A SecurityException leaves the alarms unchanged. Otherwise one alarm at now + duration is set under RequestCode and the toast reports duration / 60000 |
| SnoozeReceiver.DefaultSnoozeIsFiveMinutes | app/src/main/java/com/shejan/nextdo/SnoozeReceiver.java:39-43 | with the preference unset, the alarm fires 300000 ms after now and the toast says 5 minutes |
| SnoozeReceiver.SnoozedReminderEscapesCancel | app/src/main/java/com/shejan/nextdo/SnoozeReceiver.java:53-55 | snoozing a scheduler-armed reminder re-arms under the task id, which a later cancel of the task's alarmId does not remove |
| SnoozeReceiver.OnReceive | app/src/main/java/com/shejan/nextdo/SnoozeReceiver.java:20-78 | the tables and the outcome are those of Snoozing |
| NewTaskActivity.Opened | app/src/main/java/com/shejan/nextdo/NewTaskActivity.java:67-100 | an edit intent loads the id, the alarm key and a positive reminder time; a new task starts at id 0 and key 0, with the calendar at the creation instant |
| NewTaskActivity.AllocateAlarmId | app/src/main/java/com/shejan/nextdo/NewTaskActivity.java:137-140 | an existing key is kept; a missing one becomes `(int) now` only for a future reminder |
| NewTaskActivity.AllocatedKeyCanBeZero | app/src/main/java/com/shejan/nextdo/NewTaskActivity.java:137-140 | the allocated key is 0 when the low 32 bits of the clock are 0 |
| NewTaskActivity.SaveReply | app/src/main/java/com/shejan/nextdo/NewTaskActivity.java:114-163 | an empty title gives RESULT_CANCELED. Otherwise RESULT_OK carries the id, the allocated key, the texts, priority and repeat (each "NONE" when missing) and the calendar's millis |
| NewTaskActivity.DeleteReply | app/src/main/java/com/shejan/nextdo/NewTaskActivity.java:182-191 | RESULT_DELETE, with the id only for an existing task |
| NewTaskActivity.NewTaskActivity.constructor | app/src/main/java/com/shejan/nextdo/NewTaskActivity.java:67-100 | the fields are those of Opened |
| NewTaskActivity.NewTaskActivity.PickReminder | app/src/main/java/com/shejan/nextdo/NewTaskActivity.java:204-222 | the calendar holds the picked instant |
| NewTaskActivity.NewTaskActivity.Save | app/src/main/java/com/shejan/nextdo/NewTaskActivity.java:114-168 | the reply is SaveReply; only alarmId may change, and only as AllocateAlarmId says; an exception gives RESULT_CANCELED; no alarm is armed |
| NewTaskActivity.NewTaskActivity.Delete | app/src/main/java/com/shejan/nextdo/NewTaskActivity.java:181-194 | the reply is DeleteReply; an existing task's alarm is cancelled and no other alarm is touched |
| MainActivity.ResultTask | app/src/main/java/com/shejan/nextdo/MainActivity.java:60-77 | an existing task keeps the alarm key handed back; a new one gets `(int) now` whatever the editor sent; the other fields come from the reply |
| MainActivity.EditIntent | app/src/main/java/com/shejan/nextdo/MainActivity.java:656-665 | the editor intent carries the id, the alarm key and every displayed field unchanged |
| MainActivity.EditRoundTrip | app/src/main/java/com/shejan/nextdo/MainActivity.java:57-122 | opening a stored task and saving it writes back the same id, alarm key and reminder time, and resets completion |
| MainActivity.ArmedReminderNamesInsertedRow | app/src/main/java/com/shejan/nextdo/MainActivity.java:98-109 | an alarm armed after an insert names the row id the store generated, and that row is in the table |
| MainActivity.MainActivity.OnActivityResult | app/src/main/java/com/shejan/nextdo/MainActivity.java:57-122 | update, then schedule or cancel; insert, then schedule with the generated id or do nothing; delete by id, or a toast for id -1; alarms change only after the write |
| MainActivity.MainActivity.OnTaskCompleted | app/src/main/java/com/shejan/nextdo/MainActivity.java:639-653 | the row is updated with the flag; completing removes notification task.id and never touches alarms |
| MainActivity.MainActivity.OnTaskClicked | app/src/main/java/com/shejan/nextdo/MainActivity.java:656-666 | the editor is launched with EditIntent of the task |
| RecycleBinAdapter.DaysLeft | app/src/main/java/com/shejan/nextdo/RecycleBinAdapter.java:67-71 | 30 minus the whole days elapsed, clamped at 0; at most 30 when the deletion is not in the future, and 30 plus the whole days ahead when it is |
| RecycleBinAdapter.FutureDeletionShowsMoreThanThirty | app/src/main/java/com/shejan/nextdo/RecycleBinAdapter.java:67-71 | a deletion two days in the future shows 32 days left |
| RecycleBinAdapter.JavaEquals | app/src/main/java/com/shejan/nextdo/RecycleBinAdapter.java:101-103 | `equals` on a null receiver throws; otherwise it is string equality |
| RecycleBinAdapter.ItemsTheSame | app/src/main/java/com/shejan/nextdo/RecycleBinAdapter.java:95-97 | two rows are the same item when their primary keys are equal |
| RecycleBinAdapter.SameItemIsSameRow | app/src/main/java/com/shejan/nextdo/RecycleBinAdapter.java:95-97 | within one table, two rows are the same item exactly when they are the same row |
| RecycleBinAdapter.ContentsTheSame | app/src/main/java/com/shejan/nextdo/RecycleBinAdapter.java:100-107 | with non-null strings, equal title, description, priority, reminder time, completion and deletion flag; a null old title throws |
| RecycleBinAdapter.RepeatIsIgnored | app/src/main/java/com/shejan/nextdo/RecycleBinAdapter.java:100-107 | the repeat column never changes the answer |
| RecycleBinAdapter.OnBinButton | app/src/main/java/com/shejan/nextdo/RecycleBinAdapter.java:80-88 | a button reaches the listener only when one is set, and always with the row's own task |
| RecycleBinActivity.RetentionThreshold | app/src/main/java/com/shejan/nextdo/RecycleBinActivity.java:181-182 | now minus 2,592,000,000 ms as a long subtraction |
| RecycleBinActivity.DeleteAllEnabled | app/src/main/java/com/shejan/nextdo/RecycleBinActivity.java:87-98 | "delete all" is enabled exactly when the bin shows a task |
| RecycleBinActivity.EmptiedBinDisablesDeleteAll | app/src/main/java/com/shejan/nextdo/RecycleBinActivity.java:161-162 | after emptying the bin, "delete all" is disabled |
| RecycleBinActivity.PurgeMatchesDaysLeft | app/src/main/java/com/shejan/nextdo/RecycleBinActivity.java:181-183 | a row the purge removes shows 0 days left, and a row showing days left survives the purge |
| RecycleBinActivity.RecycleBinActivity.OnResume | app/src/main/java/com/shejan/nextdo/RecycleBinActivity.java:177-184 | every resume deletes exactly the rows deleted before the threshold, assuming the missing ViewModel method reaches the DAO purge |
| RecycleBinActivity.RecycleBinActivity.ConfirmDeleteAll | app/src/main/java/com/shejan/nextdo/RecycleBinActivity.java:161-162 | confirming removes exactly the deleted rows, assuming the missing ViewModel method reaches the DAO bulk delete |
| UpcomingTasksRemoteViewsFactory.UpcomingTasks | app/src/main/java/com/shejan/nextdo/UpcomingTasksRemoteViewsFactory.java:34-50 | exactly the snapshot tasks not completed with a reminder after now, ascending by reminder time |
| UpcomingTasksRemoteViewsFactory.UpcomingKeepsSnapshotOrderOnTies | app/src/main/java/com/shejan/nextdo/UpcomingTasksRemoteViewsFactory.java:48 | tasks with equal reminder times keep their snapshot order |
| UpcomingTasksRemoteViewsFactory.PositionZeroChangesHands | app/src/main/java/com/shejan/nextdo/UpcomingTasksRemoteViewsFactory.java:94-102 | an item id is a position, so a refresh can put another task under id 0 although ids are reported stable |
| UpcomingTasksRemoteViewsFactory.UpcomingTasksRemoteViewsFactory.constructor | app/src/main/java/com/shejan/nextdo/UpcomingTasksRemoteViewsFactory.java:21-26 | the list is empty; the light layout is used when the THEME extra is "LIGHT" |
| UpcomingTasksRemoteViewsFactory.UpcomingTasksRemoteViewsFactory.OnDataSetChanged | app/src/main/java/com/shejan/nextdo/UpcomingTasksRemoteViewsFactory.java:34-50 | the old list is discarded; a null snapshot leaves it empty, otherwise it becomes UpcomingTasks |
| UpcomingTasksRemoteViewsFactory.UpcomingTasksRemoteViewsFactory.OnDestroy | app/src/main/java/com/shejan/nextdo/UpcomingTasksRemoteViewsFactory.java:53-55 | the list is emptied |
| UpcomingTasksRemoteViewsFactory.UpcomingTasksRemoteViewsFactory.GetCount | app/src/main/java/com/shejan/nextdo/UpcomingTasksRemoteViewsFactory.java:58-60 | getViewAt fills exactly the positions below the count |
| UpcomingTasksRemoteViewsFactory.UpcomingTasksRemoteViewsFactory.GetViewAt | app/src/main/java/com/shejan/nextdo/UpcomingTasksRemoteViewsFactory.java:63-82 | null exactly past the end; otherwise the task's title and reminder time in the theme's layout |
| UpcomingTasksRemoteViewsFactory.UpcomingTasksRemoteViewsFactory.GetItemId | app/src/main/java/com/shejan/nextdo/UpcomingTasksRemoteViewsFactory.java:95-97 | the id is the position, so it names whatever row getViewAt shows there now, not a task |
| TaskListAdapter.ItemsTheSame | app/src/main/java/com/shejan/nextdo/TaskListAdapter.java:55-57 | two rows are the same item when their primary keys are equal |
| TaskListAdapter.SameItemIsSameRow | app/src/main/java/com/shejan/nextdo/TaskListAdapter.java:55-57 | within one table, two rows are the same item exactly when they are the same row |
| TaskListAdapter.ContentsTheSame | app/src/main/java/com/shejan/nextdo/TaskListAdapter.java:60-67 | true exactly when the rows are equal apart from the id, the alarm key and the soft-delete columns |
| TaskListAdapter.SameItemAndContents | app/src/main/java/com/shejan/nextdo/TaskListAdapter.java:53-67 | rows with the same id and contents differ only in the alarm key and the soft-delete columns |
| TaskListAdapter.UpperAscii | app/src/main/java/com/shejan/nextdo/TaskListAdapter.java:101 | lower-case ASCII letters map to upper case; other characters are unchanged |
| TaskListAdapter.ShowsPriorityChip | app/src/main/java/com/shejan/nextdo/TaskListAdapter.java:100-107 | a shown chip has a non-null, non-empty priority other than "NONE" |
| TaskListAdapter.ChipHiddenExactlyForNone | app/src/main/java/com/shejan/nextdo/TaskListAdapter.java:100-107 | a non-empty priority hides the chip exactly when it spells "none" in some case mix |
| TaskListAdapter.Bind | app/src/main/java/com/shejan/nextdo/TaskListAdapter.java:78-130 | a null task shows nothing. Otherwise: the description is visible iff it is non-empty; the chip iff its condition holds; the reminder line iff reminderTime > 0; the details row iff either; the checkbox mirrors completion |
| TaskListAdapter.NewTaskRowIsBare | app/src/main/java/com/shejan/nextdo/TaskListAdapter.java:78-130 | a task with default fields shows nothing but its empty title |
| Gregorian.DaysInMonth | app/src/main/java/com/shejan/nextdo/ModernCalendarBottomSheet.java:141 | 28 to 31 days: 29 only in a leap February, 30 in April, June, September and November |
| Gregorian.DayOfWeek | app/src/main/java/com/shejan/nextdo/ModernCalendarBottomSheet.java:140 | a weekday from 1 (Sunday) to 7 |
| Gregorian.KnownWeekdays | app/src/main/java/com/shejan/nextdo/ModernCalendarBottomSheet.java:140 | 1970-01-01 is a Thursday and 2024-01-01 a Monday |
| Gregorian.YearLength | app/src/main/java/com/shejan/nextdo/ModernCalendarBottomSheet.java:89-99 | a year's months add up to its length, 365 or 366 days |
| Gregorian.DayOfWeekInMonth | app/src/main/java/com/shejan/nextdo/ModernCalendarBottomSheet.java:149-153 | within a month, day k falls k - 1 weekdays after the first |
| Gregorian.NextMonth | app/src/main/java/com/shejan/nextdo/ModernCalendarBottomSheet.java:95-99 | the first of the following month, rolling over to January of the next year |
| Gregorian.PrevMonth | app/src/main/java/com/shejan/nextdo/ModernCalendarBottomSheet.java:89-93 | the first of the preceding month, rolling back to December of the previous year |
| Gregorian.NextMonthIsOneMonthLater | app/src/main/java/com/shejan/nextdo/ModernCalendarBottomSheet.java:89-99 | the next month starts right after this month's last day; previous and next undo each other |
| CalendarAdapter.IsSameDay | app/src/main/java/com/shejan/nextdo/CalendarAdapter.java:85-91 | false when either side is null; otherwise year, month and day agree |
| CalendarAdapter.SameDayIsEquivalence | app/src/main/java/com/shejan/nextdo/CalendarAdapter.java:85-91 | reflexive, symmetric and transitive on non-null calendars |
| CalendarAdapter.Style | app/src/main/java/com/shejan/nextdo/CalendarAdapter.java:40-83 | an empty cell is blank; selected wins over today, and today over plain; the label is the day of the month |
| CalendarAdapter.CalendarAdapter.CellAt | app/src/main/java/com/shejan/nextdo/CalendarAdapter.java:40-83 | a cell is blank iff it is empty, drawn selected iff it is the selected day, drawn as today iff it is today and not selected, and labelled with its day of the month |
| CalendarAdapter.CalendarAdapter.Click | app/src/main/java/com/shejan/nextdo/CalendarAdapter.java:76-81 | a day cell becomes the selection, goes to the listener and is then drawn selected; an empty cell does nothing |
| CalendarAdapter.CalendarAdapter.UpdateDays | app/src/main/java/com/shejan/nextdo/CalendarAdapter.java:98-103 | the cells become the new days |
| ModernCalendarBottomSheet.CalendarDays | app/src/main/java/com/shejan/nextdo/ModernCalendarBottomSheet.java:135-156 | the two loops build exactly MonthGrid |
| ModernCalendarBottomSheet.MonthGridShape | app/src/main/java/com/shejan/nextdo/ModernCalendarBottomSheet.java:140-153 | firstDayOfWeek - 1 empty cells, then days 1 to daysInMonth of the same month in their weekday columns; at most 37 cells |
| ModernCalendarBottomSheet.OneSelectedCell | app/src/main/java/com/shejan/nextdo/ModernCalendarBottomSheet.java:116-119 | after a day is picked, exactly that cell of the grid is drawn selected |
| ModernCalendarBottomSheet.ModernCalendarBottomSheet.constructor | app/src/main/java/com/shejan/nextdo/ModernCalendarBottomSheet.java:72-87 | the selection is the argument's date when the argument is positive, else now; the month shown is the selection's, on day 1 |
| ModernCalendarBottomSheet.ModernCalendarBottomSheet.UpdateCalendar | app/src/main/java/com/shejan/nextdo/ModernCalendarBottomSheet.java:135-156 | the adapter shows the grid of the current month, and its item count is firstDayOfWeek - 1 + daysInMonth |
| ModernCalendarBottomSheet.ModernCalendarBottomSheet.PrevMonthClicked | app/src/main/java/com/shejan/nextdo/ModernCalendarBottomSheet.java:89-93 | one month back, still on day 1, with the grid redrawn |
| ModernCalendarBottomSheet.ModernCalendarBottomSheet.NextMonthClicked | app/src/main/java/com/shejan/nextdo/ModernCalendarBottomSheet.java:95-99 | one month forward, still on day 1, with the grid redrawn |
| ModernCalendarBottomSheet.ModernCalendarBottomSheet.DayClicked | app/src/main/java/com/shejan/nextdo/ModernCalendarBottomSheet.java:116-119 | a day cell becomes the selection of both the adapter and the sheet |
| ModernCalendarBottomSheet.ModernCalendarBottomSheet.OkClicked | app/src/main/java/com/shejan/nextdo/ModernCalendarBottomSheet.java:103-108 | the selection is reported only when a listener is set |
| SettingsActivity.SelectedThemeIndex | app/src/main/java/com/shejan/nextdo/SettingsActivity.java:51-60 | the first index whose value equals the stored theme, else 1 ("dark") |
| SettingsActivity.ThemeLabel | app/src/main/java/com/shejan/nextdo/SettingsActivity.java:76-83 | "Light" for "light", "System" for "system", "Dark" for anything else |
| SettingsActivity.LabelMatchesOption | app/src/main/java/com/shejan/nextdo/SettingsActivity.java:64-67 | after choosing an option, the label is that option's caption |
| SettingsActivity.SwitchStates | app/src/main/java/com/shejan/nextdo/SettingsActivity.java:85-120 | each switch shows its stored value; unset, notifications, sound and vibration are on and persistent notifications is off |
| SettingsActivity.SwitchShowsWhatWasSet | app/src/main/java/com/shejan/nextdo/SettingsActivity.java:95-120 | after a switch is flipped the screen shows its new state and the other switches keep theirs |
| SettingsActivity.SwitchAgreesWithScheduler | app/src/main/java/com/shejan/nextdo/SettingsActivity.java:87 | the notifications switch shows exactly what the alarm scheduler obeys |
| SettingsActivity.SnoozeChoice | app/src/main/java/com/shejan/nextdo/SettingsActivity.java:128-138 | a value is written iff both arrays are non-empty and which indexes the values; it is values[which] |
| SettingsActivity.SettingsActivity.constructor | app/src/main/java/com/shejan/nextdo/SettingsActivity.java:45-47 | the label shows the stored theme, "Dark" when unset |
| SettingsActivity.SettingsActivity.ChooseTheme | app/src/main/java/com/shejan/nextdo/SettingsActivity.java:64-67 | "theme" now holds themeValues[which] and the label is themeOptions[which] |
| SettingsActivity.SettingsActivity.SetSwitch | app/src/main/java/com/shejan/nextdo/SettingsActivity.java:88-118 | a switch stores its new state under its own key |
| SettingsActivity.SettingsActivity.ChooseSnooze | app/src/main/java/com/shejan/nextdo/SettingsActivity.java:122-145 | "snooze_duration" changes exactly as SnoozeChoice says |
| ThemeManager.NightModeFor | app/src/main/java/com/shejan/nextdo/ThemeManager.java:14-24 | "light" maps to night mode off and "dark" to night mode on; every other string follows the system |
| ThemeManager.ApplyTheme | app/src/main/java/com/shejan/nextdo/ThemeManager.java:11-25 | an unset theme follows the system; otherwise the stored string decides |
| ThemeManager.ChosenThemeIsApplied | app/src/main/java/com/shejan/nextdo/ThemeManager.java:14-24 | each settings option gives the night mode its caption names |
| ThemeManager.UnsetThemeShownDarkButFollowsSystem | app/src/main/java/com/shejan/nextdo/ThemeManager.java:13 | an unset or unknown theme follows the system while the settings screen says "Dark" |

## Left out

- Drawing, animation, swipe colours, blur, window insets, toasts other than the ones listed, and notification styling: these are presentation, not logic.
- Concurrency: the write executor, LiveData observation and the database singleton. Each write and its callback run in sequence.
- Conversion between epoch milliseconds and calendar fields, time zones, and SimpleDateFormat. Calendar values are (year, month, day) plus the time of day, in the proleptic Gregorian calendar (java.util.Calendar switches to the Julian calendar before 1582).
- The SQL LIKE pattern of searchTasks: it is an abstract predicate on strings.
- TaskViewModel's `restore`, `softDelete`, `deletePermanently`, `getDeletedTasks`, `deleteAllDeletedTasks` and `deleteOldTasks` are called by the screens but not defined in TaskViewModel.java, which has only `getAllTasks`, `insert`, `update` and `delete` (TaskViewModel.java:21-41). The recycle bin's restore and delete routing stops at the listener (`RecycleBinAdapter.OnBinButton`).
- RecycleBinActivity.RecycleBinActivity.OnResume: `taskViewModel.deleteOldTasks(threshold)` (RecycleBinActivity.java:183) is taken to hand off to `TaskDao.TaskTable.DeleteOldTasks`, because the ViewModel method is missing; the purge is stated for that assumed wiring. The bin list (`getDeletedTasks`, RecycleBinActivity.java:85) is likewise taken to be `TaskDao.GetDeletedTasks`.
- RecycleBinActivity.RecycleBinActivity.ConfirmDeleteAll: `taskViewModel.deleteAllDeletedTasks()` (RecycleBinActivity.java:162) is taken to hand off to `TaskDao.TaskTable.DeleteAllDeletedTasks`, because the ViewModel method is missing; the effect is stated for that assumed wiring.
- BootCompletedReceiver: its body is empty, so there is nothing to model.
- PendingIntents, the settings intent of AlarmScheduler (a prompt counter only), and the content intents of the notifications.
- AlarmScheduler.Scheduled: the source builds its PendingIntent with FLAG_UPDATE_CURRENT before the privilege check (AlarmScheduler.java:34), so without the privilege it still rewrites the extras of an alarm already armed under the same key; the model leaves that entry unchanged.
- SnoozeReceiver.Snoozing: likewise, when the alarm service throws a SecurityException the PendingIntent built before the `try` (SnoozeReceiver.java:59-60) has already rewritten the extras of an alarm armed under the request code; the model leaves that entry unchanged.
- SnoozeReceiver.OnReceive: no modelled code sends an intent to this receiver; the reminder notification has no snooze action. The receiver is modelled on its own, for whatever extras it is given.
- System services that are null: the alarm and notification services are always present.
- The SecurityException of the alarm service is the parameter `osRejects`.
- NewTaskActivity.NewTaskActivity.Save: an exception is the parameter `throws`, taken before any field changes. Both clock reads of the save handler are one reading `now`.
- Task objects are values: aliasing between the Task passed to a write and the one the callback reads is modelled by returning it.
- Shared preferences keep one type per key, as two typed maps.
- `Long.parseLong` and `equalsIgnoreCase` are modelled on ASCII: non-ASCII digits and Unicode case folding are not.
- UpcomingTasksRemoteViewsFactory.UpcomingTasksRemoteViewsFactory.GetViewAt: the position is a `nat`, so negative positions (which throw in Java) are not modelled.
- UpcomingTasksRemoteViewsFactory.UpcomingTasksRemoteViewsFactory.OnDataSetChanged: the sort is a stable function on the sequence, not an in-place sort of the list.
- ModernCalendarBottomSheet.ModernCalendarBottomSheet.OkClicked: reports the selected calendar fields, not epoch milliseconds.
- ReminderWorker.DoWork: the PendingIntent and the priority constant are not modelled beyond "not high priority".
- The swipe, long-press, search and settings-menu handlers of MainActivity are outside the modelled screens.
