/** NotificationDismissReceiver: a swipe on the notification removes it from the table. */
module NotificationDismissReceiver {
  import opened JavaLang
  import opened Android

  /** The notification table after onReceive with the task_id extra (0 when absent). */
  function Dismissed(posted: map<int, Notification>, taskId: Option<int>): (r: map<int, Notification>)
    ensures taskId.GetOr(0) > 0 ==> r == posted - {taskId.value}
    ensures taskId.GetOr(0) <= 0 ==> r == posted
    ensures forall k :: k != taskId.GetOr(0) ==> (k in r <==> k in posted)
    ensures forall k :: k in r ==> r[k] == posted[k]
  {
    var id := taskId.GetOr(0);
    if id > 0 then posted - {id} else posted
  }

  /** Dismissing twice is dismissing once. */
  lemma DismissIsIdempotent(posted: map<int, Notification>, taskId: Option<int>)
    ensures Dismissed(Dismissed(posted, taskId), taskId) == Dismissed(posted, taskId)
  {
    var once := Dismissed(posted, taskId);
    assert Dismissed(once, taskId).Keys == once.Keys;
  }

  method OnReceive(nm: NotificationManager, taskId: Option<int>)
    modifies nm`posted
    ensures nm.posted == Dismissed(old(nm.posted), taskId)
  {
    var id := taskId.GetOr(0);
    if id > 0 {
      nm.Cancel(id);
    }
  }
}
