/** CalendarAdapter: the cells of the month grid (None is an empty cell), the selected day
    and today, with the cell style rules and click selection. */
module CalendarAdapter {
  import opened JavaLang
  import opened Gregorian

  /** isSameDay: false when either side is null; otherwise year, month and day of month
      agree (the time of day does not matter). */
  function IsSameDay(a: Option<Cal>, b: Option<Cal>): (same: bool)
    ensures same <==> a.Some? && b.Some? && a.value.date == b.value.date
  {
    if a.None? || b.None? then false
    else a.value.date.year == b.value.date.year && a.value.date.month == b.value.date.month
         && a.value.date.day == b.value.date.day
  }

  /** isSameDay is an equivalence on non-null calendars. */
  lemma SameDayIsEquivalence(a: Cal, b: Cal, c: Cal)
    ensures IsSameDay(Some(a), Some(a))
    ensures IsSameDay(Some(a), Some(b)) == IsSameDay(Some(b), Some(a))
    ensures IsSameDay(Some(a), Some(b)) && IsSameDay(Some(b), Some(c)) ==> IsSameDay(Some(a), Some(c))
  {
  }

  /** How onBindViewHolder draws a cell. */
  datatype CellStyle =
    | Blank                      // no text, no background, no click handler
    | SelectedDay(dayOfMonth: int)    // solid circle
    | TodayDay(dayOfMonth: int)       // hollow circle
    | PlainDay(dayOfMonth: int)       // no background

  /** The style of a cell: selected before today before plain. */
  function Style(cell: Option<Cal>, selected: Option<Cal>, today: Cal): (s: CellStyle)
    ensures cell.None? <==> s == Blank
    ensures s.SelectedDay? <==> IsSameDay(cell, selected)
    ensures s.TodayDay? <==> !IsSameDay(cell, selected) && IsSameDay(cell, Some(today))
    ensures cell.Some? ==> s.dayOfMonth == cell.value.date.day
  {
    if cell.None? then Blank
    else if IsSameDay(cell, selected) then SelectedDay(cell.value.date.day)
    else if IsSameDay(cell, Some(today)) then TodayDay(cell.value.date.day)
    else PlainDay(cell.value.date.day)
  }

  class CalendarAdapter {
    var days: seq<Option<Cal>>
    var selectedDate: Option<Cal>
    const today: Cal

    constructor(days: seq<Option<Cal>>, selectedDate: Option<Cal>, today: Cal)
      ensures this.days == days && this.selectedDate == selectedDate && this.today == today
    {
      this.days := days;
      this.selectedDate := selectedDate;
      this.today := today;
    }

    function ItemCount(): (n: nat)
      reads this
      ensures n == |days|
    {
      |days|
    }

    function CellAt(position: nat): (s: CellStyle)
      reads this
      requires position < |days|
      ensures s == Blank <==> days[position].None?
      ensures s.SelectedDay? <==> IsSameDay(days[position], selectedDate)
      ensures s.TodayDay? <==> !IsSameDay(days[position], selectedDate) && IsSameDay(days[position], Some(today))
      ensures days[position].Some? ==> s.dayOfMonth == days[position].value.date.day
    {
      Style(days[position], selectedDate, today)
    }

    /** A click on a cell: a day cell becomes the selection and is handed to the listener
        (the result); an empty cell has no click handler. */
    method Click(position: nat) returns (picked: Option<Cal>)
      requires position < |days|
      modifies this`selectedDate
      ensures picked == days[position]
      ensures days[position].Some? ==> selectedDate == days[position]
      ensures days[position].None? ==> selectedDate == old(selectedDate)
      ensures picked.Some? ==> CellAt(position).SelectedDay?
    {
      picked := days[position];
      if picked.Some? {
        selectedDate := picked;
      }
    }

    method UpdateDays(newDays: seq<Option<Cal>>)
      modifies this`days
      ensures days == newDays
    {
      days := newDays;
    }
  }
}
