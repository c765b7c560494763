/** ModernCalendarBottomSheet: the date-picker sheet. It shows the month of currentMonth
    (always the first of a month) as a grid of seven columns starting on Sunday, lets the
    user move a month back or forward and pick a day, and reports the pick on OK. */
module ModernCalendarBottomSheet {
  import opened JavaLang
  import opened Gregorian
  import opened CalendarAdapter

  /** updateCalendar's list: one empty cell per weekday before the first, then every day
      of the month, each a copy of currentMonth with its day of month set (so it keeps
      currentMonth's time of day). */
  function MonthGrid(first: Cal): (g: seq<Option<Cal>>)
    requires ValidDate(first.date) && first.date.day == 1
  {
    var lead := DayOfWeek(first.date) - 1;
    var n := DaysInMonth(first.date.year, first.date.month);
    seq(lead, _ => None) + seq(n, i => Some(Cal(first.date.(day := i + 1), first.millisOfDay)))
  }

  /** updateCalendar's two loops: the placeholders for weekdays 1 .. firstDayOfWeek - 1,
      then a copy of the month's first day for each day of the month. */
  method CalendarDays(first: Cal) returns (days: seq<Option<Cal>>)
    requires ValidDate(first.date) && first.date.day == 1
    ensures days == MonthGrid(first)
  {
    var firstDayOfWeek := DayOfWeek(first.date);
    var daysInMonth := DaysInMonth(first.date.year, first.date.month);
    days := [];
    var i := 1;
    while i < firstDayOfWeek
      invariant 1 <= i <= firstDayOfWeek
      invariant days == seq(i - 1, _ => None)
    {
      days := days + [None];
      i := i + 1;
    }
    ghost var lead := days;
    i := 1;
    while i <= daysInMonth
      invariant 1 <= i <= daysInMonth + 1
      invariant days == lead + seq(i - 1, k => Some(Cal(first.date.(day := k + 1), first.millisOfDay)))
    {
      var day := Cal(first.date.(day := i), first.millisOfDay);
      days := days + [Some(day)];
      i := i + 1;
    }
  }

  /** The grid: the leading cells are empty, then day k of the month stands at position
      lead + k - 1, in the column of its weekday; at most 37 cells. */
  lemma {:induction false} MonthGridShape(first: Cal)
    requires ValidDate(first.date) && first.date.day == 1
    ensures var g := MonthGrid(first);
      var lead := DayOfWeek(first.date) - 1;
      |g| == lead + DaysInMonth(first.date.year, first.date.month) && |g| <= 37
      && (forall i :: 0 <= i < lead ==> g[i].None?)
      && (forall i :: lead <= i < |g| ==>
            g[i].Some? && g[i].value.date == Date(first.date.year, first.date.month, i - lead + 1)
            && g[i].value.millisOfDay == first.millisOfDay
            && DayOfWeek(g[i].value.date) == i % 7 + 1)
  {
    var g := MonthGrid(first);
    var lead := DayOfWeek(first.date) - 1;
    var y, m := first.date.year, first.date.month;
    assert first.date == Date(y, m, 1);
    forall i | lead <= i < |g|
      ensures g[i].Some? && g[i].value.date == Date(y, m, i - lead + 1)
      ensures DayOfWeek(g[i].value.date) == i % 7 + 1
    {
      assert g[i] == Some(Cal(first.date.(day := i - lead + 1), first.millisOfDay));
      DayOfWeekInMonth(y, m, i - lead + 1);
    }
  }

  /** After a click on a day of the grid, exactly that cell is drawn as selected. */
  lemma {:induction false} OneSelectedCell(first: Cal, today: Cal, p: nat)
    requires ValidDate(first.date) && first.date.day == 1
    requires p < |MonthGrid(first)| && MonthGrid(first)[p].Some?
    ensures forall i :: 0 <= i < |MonthGrid(first)| ==>
      (Style(MonthGrid(first)[i], MonthGrid(first)[p], today).SelectedDay? <==> i == p)
  {
    MonthGridShape(first);
  }

  /** What the sheet keeps: the month shown (its first day), the selection and whether an
      OnDateSelectedListener is set. */
  class ModernCalendarBottomSheet {
    var currentMonth: Cal
    var selectedDate: Cal
    var listenerSet: bool
    const adapter: CalendarAdapter

    predicate Valid()
      reads this, adapter
    {
      ValidDate(currentMonth.date) && currentMonth.date.day == 1 && adapter.days == MonthGrid(currentMonth)
    }

    /** newInstance + onViewCreated: the selection is the argument's date when the
        SELECTED_DATE argument is positive, else now; currentMonth is the first of the
        selection's month. argFields are the calendar fields of the argument instant. */
    constructor(now: Cal, arg: Option<int>, argFields: Cal, listenerSet: bool)
      requires ValidDate(now.date) && ValidDate(argFields.date)
      ensures Valid() && fresh(adapter)
      ensures arg.GetOr(0) > 0 ==> selectedDate == argFields
      ensures arg.GetOr(0) <= 0 ==> selectedDate == now
      ensures currentMonth == selectedDate.(date := selectedDate.date.(day := 1))
      ensures adapter.selectedDate == Some(selectedDate) && adapter.today == now
      ensures this.listenerSet == listenerSet
    {
      var picked := if arg.GetOr(0) > 0 then argFields else now;
      var month := picked.(date := picked.date.(day := 1));
      currentMonth := month;
      selectedDate := picked;
      this.listenerSet := listenerSet;
      adapter := new CalendarAdapter([], Some(picked), now);
      new;
      UpdateCalendar();
    }

    /** updateCalendar: the adapter gets the grid of currentMonth. */
    method UpdateCalendar()
      requires ValidDate(currentMonth.date) && currentMonth.date.day == 1
      modifies adapter`days
      ensures Valid()
      ensures adapter.ItemCount()
           == DayOfWeek(currentMonth.date) - 1 + DaysInMonth(currentMonth.date.year, currentMonth.date.month)
    {
      var days := CalendarDays(currentMonth);
      adapter.UpdateDays(days);
      MonthGridShape(currentMonth);
    }

    /** The previous-month button. */
    method PrevMonthClicked()
      requires Valid()
      modifies this`currentMonth, adapter`days
      ensures Valid()
      ensures currentMonth == old(currentMonth).(date := PrevMonth(old(currentMonth).date))
    {
      currentMonth := currentMonth.(date := PrevMonth(currentMonth.date));
      UpdateCalendar();
    }

    /** The next-month button. */
    method NextMonthClicked()
      requires Valid()
      modifies this`currentMonth, adapter`days
      ensures Valid()
      ensures currentMonth == old(currentMonth).(date := NextMonth(old(currentMonth).date))
    {
      currentMonth := currentMonth.(date := NextMonth(currentMonth.date));
      UpdateCalendar();
    }

    /** A click on cell `position`: the adapter's selection and, through its listener,
        the sheet's selection become that day; an empty cell does nothing. */
    method DayClicked(position: nat)
      requires Valid() && position < |adapter.days|
      modifies this`selectedDate, adapter`selectedDate
      ensures Valid()
      ensures adapter.days[position].Some? ==>
        selectedDate == adapter.days[position].value && adapter.selectedDate == adapter.days[position]
      ensures adapter.days[position].None? ==>
        selectedDate == old(selectedDate) && adapter.selectedDate == old(adapter.selectedDate)
    {
      var picked := adapter.Click(position);
      if picked.Some? {
        selectedDate := picked.value;
      }
    }

    /** The OK button: the selection goes to the listener when one is set. */
    function OkClicked(): (reported: Option<Cal>)
      reads this
      ensures reported.Some? <==> listenerSet
      ensures reported.Some? ==> reported.value == selectedDate
    {
      if listenerSet then Some(selectedDate) else None
    }
  }
}
