/** The row filters (WHERE clauses) and orderings (ORDER BY clauses) used on the task
    table and on the widget's list, as first-order data so that results can be compared. */
module TaskQuery {
  import opened JavaLang
  import opened TaskModel

  /** A row filter. */
  datatype Criterion =
    | Live                          // isDeleted = 0
    | InBin                         // isDeleted = 1
    | NotExpired(threshold: int)    // NOT (isDeleted = 1 AND deletedTimestamp < threshold)
    | OtherThan(id: int)            // id <> :id
    | Upcoming(now: int)            // !isCompleted && reminderTime > now
    | Matching(like: string -> bool) // (title LIKE :q OR description LIKE :q) AND isDeleted = 0

  /** `column LIKE :q`; a NULL column never matches. */
  predicate Like(like: string -> bool, column: JString) {
    column.Some? && like(column.value)
  }

  predicate Keeps(c: Criterion, t: Task) {
    match c
    case Live => !t.isDeleted
    case InBin => t.isDeleted
    case NotExpired(threshold) => !(t.isDeleted && t.deletedTimestamp < threshold)
    case OtherThan(id) => t.id != id
    case Upcoming(now) => !t.isCompleted && t.reminderTime > now
    case Matching(like) => (Like(like, t.title) || Like(like, t.description)) && !t.isDeleted
  }

  /** The rows of s that c keeps, in their order. */
  function Filter(s: seq<Task>, c: Criterion): (r: seq<Task>)
    ensures |r| <= |s|
    ensures forall t :: t in r <==> t in s && Keeps(c, t)
  {
    if s == [] then []
    else
      var rest := Filter(s[1..], c);
      assert s == [s[0]] + s[1..];
      if Keeps(c, s[0]) then [s[0]] + rest else rest
  }

  lemma {:induction false} FilterAppend(a: seq<Task>, b: seq<Task>, c: Criterion)
    ensures Filter(a + b, c) == Filter(a, c) + Filter(b, c)
  {
    if a == [] {
      assert a + b == b;
    } else {
      var ab := a + b;
      assert ab[0] == a[0] && ab[1..] == a[1..] + b;
      FilterAppend(a[1..], b, c);
    }
  }

  /** Filtering by d after c is filtering by d alone when d keeps only rows that c keeps. */
  lemma {:induction false} FilterNarrows(s: seq<Task>, c: Criterion, d: Criterion)
    requires forall t :: Keeps(d, t) ==> Keeps(c, t)
    ensures Filter(Filter(s, c), d) == Filter(s, d)
  {
    if s != [] {
      FilterNarrows(s[1..], c, d);
    }
  }

  /** Filtering by d after c is filtering by c after d. */
  lemma {:induction false} FilterCommutes(s: seq<Task>, c: Criterion, d: Criterion)
    ensures Filter(Filter(s, c), d) == Filter(Filter(s, d), c)
  {
    if s != [] {
      FilterCommutes(s[1..], c, d);
    }
  }

  /** Ids of distinct rows differ: the primary-key constraint. */
  predicate UniqueIds(s: seq<Task>) {
    forall i, j :: 0 <= i < j < |s| ==> s[i].id != s[j].id
  }

  lemma {:induction false} FilterKeepsUniqueIds(s: seq<Task>, c: Criterion)
    requires UniqueIds(s)
    ensures UniqueIds(Filter(s, c))
  {
    if s != [] {
      FilterKeepsUniqueIds(s[1..], c);
      var rest := Filter(s[1..], c);
      forall t | t in rest ensures t.id != s[0].id {
        var k :| 0 <= k < |s[1..]| && s[1..][k] == t;
        assert s[k + 1] == t;
      }
    }
  }

  /** An ORDER BY clause. */
  datatype Order =
    | IncompleteFirstThenIdDesc   // ORDER BY isCompleted ASC, id DESC
    | IdDesc                      // ORDER BY id DESC
    | DeletedTimestampDesc        // ORDER BY deletedTimestamp DESC
    | ReminderTimeAsc             // Comparator.comparingLong(t -> t.reminderTime)

  /** a may stand before b. */
  predicate Le(o: Order, a: Task, b: Task) {
    match o
    case IncompleteFirstThenIdDesc =>
      (!a.isCompleted && b.isCompleted) || (a.isCompleted == b.isCompleted && a.id >= b.id)
    case IdDesc => a.id >= b.id
    case DeletedTimestampDesc => a.deletedTimestamp >= b.deletedTimestamp
    case ReminderTimeAsc => a.reminderTime <= b.reminderTime
  }

  lemma LeTotal(o: Order, a: Task, b: Task)
    ensures Le(o, a, b) || Le(o, b, a)
  {
  }

  lemma LeTransitive(o: Order, a: Task, b: Task, c: Task)
    requires Le(o, a, b) && Le(o, b, c)
    ensures Le(o, a, c)
  {
  }

  predicate SortedBy(o: Order, s: seq<Task>) {
    forall i, j :: 0 <= i < j < |s| ==> Le(o, s[i], s[j])
  }

  lemma HeadPrecedesTail(o: Order, s: seq<Task>)
    requires SortedBy(o, s) && s != []
    ensures forall t :: t in s[1..] ==> Le(o, s[0], t)
  {
    forall t | t in s[1..] ensures Le(o, s[0], t) {
      var k :| 0 <= k < |s[1..]| && s[1..][k] == t;
      assert s[k + 1] == t;
    }
  }

  /** Inserts x before the first element it may precede. */
  function InsertSorted(o: Order, x: Task, s: seq<Task>): (r: seq<Task>)
    requires SortedBy(o, s)
    ensures SortedBy(o, r)
    ensures multiset(r) == multiset(s) + multiset{x}
    ensures |r| == |s| + 1
  {
    if s == [] || Le(o, x, s[0]) then
      [x] + s
    else
      LeTotal(o, x, s[0]);
      var rest := InsertSorted(o, x, s[1..]);
      assert s == [s[0]] + s[1..];
      HeadPrecedesTail(o, s);
      forall t | t in rest ensures Le(o, s[0], t) {
        assert t in multiset(rest);
        assert t == x || t in multiset(s[1..]);
      }
      [s[0]] + rest
  }

  /** A stable insertion sort: the ordering of java.util.List.sort, and one admissible
      result of an SQL ORDER BY. */
  function Sort(o: Order, s: seq<Task>): (r: seq<Task>)
    ensures SortedBy(o, r)
    ensures multiset(r) == multiset(s)
    ensures |r| == |s|
  {
    if s == [] then []
    else
      assert s == [s[0]] + s[1..];
      InsertSorted(o, s[0], Sort(o, s[1..]))
  }

  /** Neither a nor b must come first. */
  predicate Tie(o: Order, a: Task, b: Task) {
    Le(o, a, b) && Le(o, b, a)
  }

  /** The elements of s that tie with x, in their order. */
  function TiesWith(o: Order, s: seq<Task>, x: Task): seq<Task> {
    if s == [] then []
    else (if Tie(o, s[0], x) then [s[0]] else []) + TiesWith(o, s[1..], x)
  }

  lemma TiesWithCons(o: Order, y: Task, t: seq<Task>, x: Task)
    ensures TiesWith(o, [y] + t, x) == (if Tie(o, y, x) then [y] else []) + TiesWith(o, t, x)
  {
    assert ([y] + t)[0] == y && ([y] + t)[1..] == t;
  }

  lemma {:induction false} TiesWithInsert(o: Order, h: Task, s: seq<Task>, x: Task)
    requires SortedBy(o, s)
    ensures TiesWith(o, InsertSorted(o, h, s), x)
         == (if Tie(o, h, x) then [h] else []) + TiesWith(o, s, x)
  {
    if s == [] || Le(o, h, s[0]) {
      TiesWithCons(o, h, s, x);
    } else {
      var rest := InsertSorted(o, h, s[1..]);
      assert InsertSorted(o, h, s) == [s[0]] + rest;
      TiesWithCons(o, s[0], rest, x);
      TiesWithInsert(o, h, s[1..], x);
      assert s == [s[0]] + s[1..];
      TiesWithCons(o, s[0], s[1..], x);
      NotBothTie(o, h, s[0], x);
    }
  }

  /** An element that must come after y cannot tie with what y ties with. */
  lemma NotBothTie(o: Order, h: Task, y: Task, x: Task)
    requires !Le(o, h, y)
    ensures !(Tie(o, y, x) && Tie(o, h, x))
  {
    if Tie(o, y, x) && Tie(o, h, x) {
      LeTransitive(o, h, x, y);
    }
  }

  /** Stability: the elements that tie with any x keep their relative order. */
  lemma {:induction false} SortIsStable(o: Order, s: seq<Task>, x: Task)
    ensures TiesWith(o, Sort(o, s), x) == TiesWith(o, s, x)
  {
    if s != [] {
      SortIsStable(o, s[1..], x);
      TiesWithInsert(o, s[0], Sort(o, s[1..]), x);
    }
  }
}
